/** What the queries answer, and the accounting laws between them. */
module Queries {
  import opened Chain
  import opened Pending
  import opened Notify
  import Confirmed
  import opened Sorting
  import opened Sums

  // ---- History ------------------------------------------------------------------------------

  /** Unconfirmed entries have height 0 and sort last. */
  function EntryKey(e: TxEntry): Key {
    Key(if e.height == 0 then U32_MAX else e.height, e.sequence, e.txid as int)
  }

  function PoolHistory(pool: Pool, outputs: map<OutPoint, Output>, sh: ScriptHash): set<TxEntry> {
    set id | id in Touching(pool, outputs, sh) :: TxEntry(id, 0, 0)
  }

  /** A sorted listing of the confirmed and the unconfirmed entries of a script hash. */
  ghost predicate IsHistory(confirmed: seq<TxEntry>, pool: Pool, outputs: map<OutPoint, Output>,
                            sh: ScriptHash, out: seq<TxEntry>)
  {
    && Sorted(out, EntryKey)
    && multiset(out) == multiset(confirmed) + multiset(PoolHistory(pool, outputs, sh))
  }

  predicate HeightsBelow(entries: seq<TxEntry>, n: nat) {
    forall e | e in entries :: e.height < n
  }

  /** History depends only on the multiset of confirmed entries and the set of pending ones. */
  lemma HistoryDetermined(c: seq<TxEntry>, c': seq<TxEntry>, p: Pool, p': Pool, outputs: map<OutPoint, Output>,
                          outputs': map<OutPoint, Output>, sh: ScriptHash, out: seq<TxEntry>, out': seq<TxEntry>)
    requires multiset(c) == multiset(c') && PoolHistory(p, outputs, sh) == PoolHistory(p', outputs', sh)
    requires HeightsBelow(c, U32_MAX)
    requires IsHistory(c, p, outputs, sh, out) && IsHistory(c', p', outputs', sh, out')
    ensures out == out'
  {
    hide PoolHistory, Sorted;
    forall e | e in out ensures e.height < U32_MAX {
      assert e in multiset(out);
      assert e in multiset(c) || e in PoolHistory(p, outputs, sh);
      PoolHeights(p, outputs, sh);
    }
    SortedUnique(out, out', EntryKey);
  }

  lemma PoolHeights(pool: Pool, outputs: map<OutPoint, Output>, sh: ScriptHash)
    ensures forall e | e in PoolHistory(pool, outputs, sh) :: e.height == 0
  {
  }

  // ---- Mempool and fees ---------------------------------------------------------------------

  datatype MempoolEntry = MempoolEntry(txid: Txid, height: int, fee: nat)

  function MempoolKey(e: MempoolEntry): Key {
    Key(e.txid as int, 0, 0)
  }

  /** Stored outputs first, then outputs of pending transactions. */
  function FindOutput(pool: Pool, outputs: map<OutPoint, Output>, o: OutPoint): Option<Output> {
    if o in outputs then Some(outputs[o]) else PoolOutput(pool, o)
  }

  function ValueAt(pool: Pool, outputs: map<OutPoint, Output>, o: OutPoint): u64 {
    match FindOutput(pool, outputs, o) case Some(out) => out.value case None => 0
  }

  ghost function Paying(pool: Pool, outputs: map<OutPoint, Output>): OutPoint -> int {
    o => ValueAt(pool, outputs, o)
  }

  function Total(outs: seq<TxOut>): nat {
    if outs == [] then 0 else Total(outs[..|outs| - 1]) + outs[|outs| - 1].value
  }

  /** Distinct prevouts, in u64 arithmetic that saturates. */
  ghost function InputValue(pool: Pool, outputs: map<OutPoint, Output>, tx: Tx): int {
    Min(U64_MAX, Sum(Spends(tx), Paying(pool, outputs)))
  }

  function OutputValue(tx: Tx): int {
    Min(U64_MAX, Total(tx.outputs))
  }

  ghost function Fee(pool: Pool, outputs: map<OutPoint, Output>, tx: Tx): nat {
    var paid := InputValue(pool, outputs, tx) - OutputValue(tx);
    if paid < 0 then 0 else paid
  }

  ghost function MempoolEntries(pool: Pool, outputs: map<OutPoint, Output>, sh: ScriptHash): set<MempoolEntry> {
    set id | id in Touching(pool, outputs, sh) ::
      MempoolEntry(id, MempoolHeight(outputs, pool[id]), Fee(pool, outputs, pool[id]))
  }

  ghost predicate IsMempool(pool: Pool, outputs: map<OutPoint, Output>, sh: ScriptHash, out: seq<MempoolEntry>) {
    Sorted(out, MempoolKey) && multiset(out) == multiset(MempoolEntries(pool, outputs, sh))
  }

  /** The mempool answer is determined, and its (txid, height) pairs are the announced entries. */
  lemma MempoolDetermined(pool: Pool, outputs: map<OutPoint, Output>, sh: ScriptHash,
                          out: seq<MempoolEntry>, out': seq<MempoolEntry>)
    requires IsMempool(pool, outputs, sh, out) && IsMempool(pool, outputs, sh, out')
    ensures out == out'
  {
    hide Touching, Fee, MempoolHeight, Sorted;
    forall e | e in out ensures e in MempoolEntries(pool, outputs, sh) {
      assert e in multiset(out);
    }
    SortedUnique(out, out', MempoolKey);
  }

  // ---- Balances -----------------------------------------------------------------------------

  /** `value as i64` */
  function AsI64(v: int): (r: int)
    ensures 0 <= v < TWO_64 ==> 0 <= r + TWO_63 < TWO_64 && (r == v || r == v - TWO_64)
  {
    if v < TWO_63 then v else v - TWO_64
  }

  /** Two's-complement wrap-around. */
  function Wrap(x: int): (r: int)
    ensures 0 <= r + TWO_63 < TWO_64 && (x - r) % TWO_64 == 0
  {
    (x + TWO_63) % TWO_64 - TWO_63
  }

  function ScriptKeys(utxos: map<UtxoKey, u64>, sh: ScriptHash): set<UtxoKey> {
    set k | k in utxos && k.scriptHash == sh
  }

  function UtxoValue(utxos: map<UtxoKey, u64>, k: UtxoKey): u64 {
    if k in utxos then utxos[k] else 0
  }

  ghost function Holding(utxos: map<UtxoKey, u64>): UtxoKey -> int {
    k => UtxoValue(utxos, k)
  }

  ghost function ConfirmedTotal(utxos: map<UtxoKey, u64>, sh: ScriptHash): int {
    Sum(ScriptKeys(utxos, sh), Holding(utxos))
  }

  /** A sum of unspent values that saturates at the largest u64. */
  ghost function Balance(utxos: map<UtxoKey, u64>, sh: ScriptHash): int {
    Min(U64_MAX, ConfirmedTotal(utxos, sh))
  }

  /** Outpoints that pending transactions spend from a script hash. */
  function SpentFrom(pool: Pool, outputs: map<OutPoint, Output>, sh: ScriptHash): set<OutPoint> {
    set o | o in SpentBy(pool) && Resolve(View(pool), pool, outputs, o) == Some(sh)
  }

  /** Unspent pending outputs of a script hash. */
  function Unclaimed(pool: Pool, sh: ScriptHash): set<OutPoint> {
    set o | o in View(pool) && View(pool)[o].scriptHash == sh
  }

  ghost function Delta(pool: Pool, outputs: map<OutPoint, Output>, sh: ScriptHash): int {
    Wrap(Sum(Unclaimed(pool, sh), Signed(InView(pool)))
       - Sum(SpentFrom(pool, outputs, sh), Signed(Paying(pool, outputs))))
  }

  ghost function Signed(f: OutPoint -> int): OutPoint -> int {
    o => AsI64(f(o))
  }

  ghost function InView(pool: Pool): OutPoint -> int {
    o => ValueIn(View(pool), o)
  }

  function ValueIn(outs: map<OutPoint, Output>, o: OutPoint): u64 {
    if o in outs then outs[o].value else 0
  }

  /** Outputs of the script hash that pending transactions both create and spend. */
  function Chained(pool: Pool, sh: ScriptHash): set<OutPoint> {
    set o | o in SpentBy(pool) && PoolOutput(pool, o).Some? && PoolOutput(pool, o).value.scriptHash == sh
  }

  ghost function ChainedValue(pool: Pool, sh: ScriptHash): int {
    Sum(Chained(pool, sh), InPool(pool))
  }

  ghost function InPool(pool: Pool): OutPoint -> int {
    o => PoolValue(pool, o)
  }

  function PoolValue(pool: Pool, o: OutPoint): u64 {
    match PoolOutput(pool, o) case Some(out) => out.value case None => 0
  }

  // ---- Unspent listing ----------------------------------------------------------------------

  datatype Unspent = Unspent(outpoint: OutPoint, value: u64, height: nat)

  function UnspentKey(u: Unspent): Key {
    Key(u.height, u.outpoint.txid as int, u.outpoint.vout)
  }

  /** Keys of a script hash that no pending transaction spends. */
  function FreeKeys(utxos: map<UtxoKey, u64>, pool: Pool, sh: ScriptHash): set<UtxoKey> {
    set k | k in ScriptKeys(utxos, sh) && k.outpoint !in SpentBy(pool)
  }

  function UnspentOf(utxos: map<UtxoKey, u64>, outputs: map<OutPoint, Output>, k: UtxoKey): Unspent {
    Unspent(k.outpoint, UtxoValue(utxos, k), if k.outpoint in outputs then outputs[k.outpoint].height else 0)
  }

  function ConfirmedUnspent(utxos: map<UtxoKey, u64>, outputs: map<OutPoint, Output>, pool: Pool, sh: ScriptHash)
    : set<Unspent>
  {
    set k | k in FreeKeys(utxos, pool, sh) :: UnspentOf(utxos, outputs, k)
  }

  function PendingOf(pool: Pool, o: OutPoint): Unspent {
    Unspent(o, ValueIn(View(pool), o), 0)
  }

  function PendingUnspent(pool: Pool, sh: ScriptHash): set<Unspent> {
    set o | o in Unclaimed(pool, sh) :: PendingOf(pool, o)
  }

  /** Drops an entry that directly follows one for the same outpoint. */
  function Dedup(us: seq<Unspent>): seq<Unspent> {
    if |us| < 2 then us
    else
      var rest := Dedup(us[..|us| - 1]);
      if rest != [] && rest[|rest| - 1].outpoint == us[|us| - 1].outpoint then rest else rest + [us[|us| - 1]]
  }

  ghost predicate IsUnspent(utxos: map<UtxoKey, u64>, outputs: map<OutPoint, Output>, pool: Pool, sh: ScriptHash,
                            out: seq<Unspent>)
  {
    exists us ::
      && Sorted(us, UnspentKey)
      && multiset(us) == multiset(ConfirmedUnspent(utxos, outputs, pool, sh)) + multiset(PendingUnspent(pool, sh))
      && out == Dedup(us)
  }

  function TotalUnspent(us: seq<Unspent>): nat {
    if us == [] then 0 else TotalUnspent(us[..|us| - 1]) + us[|us| - 1].value
  }

  // ---- The accounting law -------------------------------------------------------------------

  /** No txid is both pending and confirmed. */
  ghost predicate Disjoint(pool: Pool, outputs: map<OutPoint, Output>) {
    forall o | o in outputs :: o.txid !in pool
  }

  /** Stored outputs that pending transactions spend are still unspent on chain. */
  ghost predicate SpendsUnspent(pool: Pool, outputs: map<OutPoint, Output>, utxos: map<UtxoKey, u64>) {
    forall o | o in SpentBy(pool) && o in outputs :: UtxoKey(outputs[o].scriptHash, o) in utxos
  }

  function Outpoints(keys: set<UtxoKey>): set<OutPoint> {
    set k | k in keys :: k.outpoint
  }

  /** What is spent from a script hash is confirmed outputs and outputs chained in the pool. */
  lemma SpentFromSplit(pool: Pool, outputs: map<OutPoint, Output>, utxos: map<UtxoKey, u64>, sh: ScriptHash)
    requires Disjoint(pool, outputs) && SpendsUnspent(pool, outputs, utxos) && Confirmed.Coupled(outputs, utxos)
    ensures var taken := Outpoints(ScriptKeys(utxos, sh) - FreeKeys(utxos, pool, sh));
      && SpentFrom(pool, outputs, sh) == taken + Chained(pool, sh)
      && taken !! Chained(pool, sh)
  {
    hide View;
    var taken := Outpoints(ScriptKeys(utxos, sh) - FreeKeys(utxos, pool, sh));
    forall o ensures o in SpentFrom(pool, outputs, sh) <==> o in taken + Chained(pool, sh) {
      CacheAgrees(pool, o);
      if o in SpentFrom(pool, outputs, sh) && o !in Chained(pool, sh) {
        assert UtxoKey(sh, o) in ScriptKeys(utxos, sh) - FreeKeys(utxos, pool, sh);
      }
    }
  }

  /** Each confirmed output of a script hash pays what its unspent entry holds. */
  lemma {:induction false} TakenSum(pool: Pool, outputs: map<OutPoint, Output>, utxos: map<UtxoKey, u64>,
                                    sh: ScriptHash, keys: set<UtxoKey>)
    requires Confirmed.Coupled(outputs, utxos) && keys <= ScriptKeys(utxos, sh)
    ensures Sum(Outpoints(keys), Paying(pool, outputs)) == Sum(keys, Holding(utxos))
  {
    if keys == {} {
      assert Outpoints(keys) == {};
    } else {
      var k :| k in keys;
      TakenSum(pool, outputs, utxos, sh, keys - {k});
      SumRemove(keys, k, Holding(utxos));
      OutpointsWithout(utxos, sh, keys, k);
      SumRemove(Outpoints(keys), k.outpoint, Paying(pool, outputs));
    }
  }

  lemma OutpointsWithout(utxos: map<UtxoKey, u64>, sh: ScriptHash, keys: set<UtxoKey>, k: UtxoKey)
    requires keys <= ScriptKeys(utxos, sh) && k in keys
    ensures Outpoints(keys - {k}) == Outpoints(keys) - {k.outpoint}
  {
    forall l | l in keys && l != k ensures l.outpoint != k.outpoint {
      assert l.scriptHash == sh && k.scriptHash == sh;
    }
  }

  lemma ChainedSum(pool: Pool, outputs: map<OutPoint, Output>, sh: ScriptHash)
    requires Disjoint(pool, outputs)
    ensures Sum(Chained(pool, sh), Paying(pool, outputs)) == ChainedValue(pool, sh)
  {
    SumEqual(Chained(pool, sh), Paying(pool, outputs), InPool(pool));
  }

  lemma SpentFromSum(pool: Pool, outputs: map<OutPoint, Output>, utxos: map<UtxoKey, u64>, sh: ScriptHash)
    requires Disjoint(pool, outputs) && SpendsUnspent(pool, outputs, utxos) && Confirmed.Coupled(outputs, utxos)
    ensures Sum(SpentFrom(pool, outputs, sh), Paying(pool, outputs))
         == Sum(ScriptKeys(utxos, sh) - FreeKeys(utxos, pool, sh), Holding(utxos)) + ChainedValue(pool, sh)
  {
    hide *;
    var keys := ScriptKeys(utxos, sh) - FreeKeys(utxos, pool, sh);
    SpentFromSplit(pool, outputs, utxos, sh);
    SumUnion(Outpoints(keys), Chained(pool, sh), Paying(pool, outputs));
    TakenSum(pool, outputs, utxos, sh, keys);
    ChainedSum(pool, outputs, sh);
  }

  // ---- The total of the unspent listing -----------------------------------------------------

  ghost function Worth(): Unspent -> int {
    (u: Unspent) => u.value
  }

  lemma {:induction false} ListedTotal(us: seq<Unspent>, entries: set<Unspent>)
    requires multiset(us) == multiset(entries)
    ensures TotalUnspent(us) == Sum(entries, Worth())
  {
    if us == [] {
      assert |multiset(entries)| == 0;
      assert entries == {};
    } else {
      var rest, last := us[..|us| - 1], us[|us| - 1];
      assert us == rest + [last];
      assert last in multiset(entries);
      SumRemove(entries, last, Worth());
      assert multiset(rest) == multiset(us) - multiset{last};
      assert multiset(rest) == multiset(entries - {last});
      ListedTotal(rest, entries - {last});
    }
  }

  lemma {:induction false} DedupSame(us: seq<Unspent>)
    requires forall i | 0 < i < |us| :: us[i - 1].outpoint != us[i].outpoint
    ensures Dedup(us) == us
  {
    if |us| >= 2 {
      DedupSame(us[..|us| - 1]);
    }
  }

  /** In a listing of a set, entries at different places are different. */
  lemma ListedApart(us: seq<Unspent>, entries: set<Unspent>, i: nat, j: nat)
    requires multiset(us) == multiset(entries) && i < j < |us|
    ensures us[i] != us[j] && us[i] in entries && us[j] in entries
  {
    assert us == us[..j] + [us[j]] + us[j + 1..];
    assert us[i] in multiset(us[..j]);
    assert us[j] in multiset(us) && us[i] in multiset(us);
    assert multiset(us)[us[j]] <= 1;
  }

  lemma {:induction false} FreeSum(outputs: map<OutPoint, Output>, utxos: map<UtxoKey, u64>, pool: Pool,
                                   sh: ScriptHash)
    ensures Sum(ConfirmedUnspent(utxos, outputs, pool, sh), Worth()) == Sum(FreeKeys(utxos, pool, sh), Holding(utxos))
  {
    var m := (k: UtxoKey) => UnspentOf(utxos, outputs, k);
    var keys := FreeKeys(utxos, pool, sh);
    forall k, l | k in keys && l in keys && m(k) == m(l) ensures k == l {
      assert k.scriptHash == sh && l.scriptHash == sh;
    }
    SumImage(keys, m, ConfirmedUnspent(utxos, outputs, pool, sh), Worth(), Holding(utxos));
  }

  lemma {:induction false} UnclaimedSum(pool: Pool, sh: ScriptHash)
    ensures Sum(PendingUnspent(pool, sh), Worth()) == Sum(Unclaimed(pool, sh), InView(pool))
  {
    hide View, Unclaimed;
    var m := (o: OutPoint) => PendingOf(pool, o);
    SumImage(Unclaimed(pool, sh), m, PendingUnspent(pool, sh), Worth(), InView(pool));
  }

  /** With pending and confirmed txids disjoint, each outpoint has one entry. */
  lemma EntriesApart(outputs: map<OutPoint, Output>, utxos: map<UtxoKey, u64>, pool: Pool, sh: ScriptHash)
    requires Disjoint(pool, outputs) && Confirmed.Coupled(outputs, utxos)
    ensures var a, b := ConfirmedUnspent(utxos, outputs, pool, sh), PendingUnspent(pool, sh);
      && a !! b
      && forall u, v | u in a + b && v in a + b && u.outpoint == v.outpoint :: u == v
  {
    hide SpentBy, View;
    assert forall u | u in PendingUnspent(pool, sh) :: u.outpoint.txid in pool by {
      UnclaimedPending(pool, sh);
    }
    forall u | u in ConfirmedUnspent(utxos, outputs, pool, sh)
      ensures u.outpoint.txid !in pool
      ensures UtxoKey(sh, u.outpoint) in utxos && u == UnspentOf(utxos, outputs, UtxoKey(sh, u.outpoint))
    {
      var k :| k in FreeKeys(utxos, pool, sh) && u == UnspentOf(utxos, outputs, k);
      assert k == UtxoKey(sh, k.outpoint);
    }
  }

  /** An outpoint is listed once, so deduplication drops nothing. */
  lemma ListingTotal(outputs: map<OutPoint, Output>, utxos: map<UtxoKey, u64>, pool: Pool, sh: ScriptHash,
                     out: seq<Unspent>)
    requires Disjoint(pool, outputs) && Confirmed.Coupled(outputs, utxos)
    requires IsUnspent(utxos, outputs, pool, sh, out)
    ensures TotalUnspent(out)
         == Sum(FreeKeys(utxos, pool, sh), Holding(utxos)) + Sum(Unclaimed(pool, sh), InView(pool))
  {
    hide View, TotalUnspent, Sorted, FreeKeys, ConfirmedUnspent, PendingUnspent, Disjoint, Confirmed.Coupled, Dedup;
    var a, b := ConfirmedUnspent(utxos, outputs, pool, sh), PendingUnspent(pool, sh);
    var us: seq<Unspent> :| && Sorted(us, UnspentKey) && multiset(us) == multiset(a) + multiset(b) && out == Dedup(us);
    EntriesApart(outputs, utxos, pool, sh);
    assert multiset(a) + multiset(b) == multiset(a + b);
    forall i | 0 < i < |us| ensures us[i - 1].outpoint != us[i].outpoint {
      ListedApart(us, a + b, i - 1, i);
    }
    DedupSame(us);
    ListedTotal(us, a + b);
    SumUnion(a, b, Worth());
    FreeSum(outputs, utxos, pool, sh);
    UnclaimedSum(pool, sh);
  }

  lemma UnclaimedPending(pool: Pool, sh: ScriptHash)
    ensures forall u | u in PendingUnspent(pool, sh) :: u.outpoint.txid in pool
  {
  }

  lemma SignedSum(s: set<OutPoint>, f: OutPoint -> int)
    requires forall o | o in s :: 0 <= f(o)
    requires Sum(s, f) < TWO_63
    ensures Sum(s, Signed(f)) == Sum(s, f) && 0 <= Sum(s, f)
  {
    SumBound(s, f, TWO_63);
    SumEqual(s, Signed(f), f);
  }

  /** Everything the script hash could hold, confirmed and pending. */
  ghost function Funds(utxos: map<UtxoKey, u64>, pool: Pool, sh: ScriptHash): int {
    ConfirmedTotal(utxos, sh) + Sum(Unclaimed(pool, sh), InView(pool)) + ChainedValue(pool, sh)
  }

  lemma ConfirmedSplit(utxos: map<UtxoKey, u64>, pool: Pool, sh: ScriptHash)
    ensures ConfirmedTotal(utxos, sh)
         == Sum(FreeKeys(utxos, pool, sh), Holding(utxos))
          + Sum(ScriptKeys(utxos, sh) - FreeKeys(utxos, pool, sh), Holding(utxos))
    ensures 0 <= Sum(FreeKeys(utxos, pool, sh), Holding(utxos)) <= ConfirmedTotal(utxos, sh)
  {
    var free, all := FreeKeys(utxos, pool, sh), ScriptKeys(utxos, sh);
    SumUnion(free, all - free, Holding(utxos));
    assert free + (all - free) == all;
    SumNonNegative(free, Holding(utxos));
    SumNonNegative(all - free, Holding(utxos));
  }

  /** What the server reports as confirmed and unconfirmed, against what it lists. */
  lemma BalanceAccounting(outputs: map<OutPoint, Output>, utxos: map<UtxoKey, u64>, pool: Pool, sh: ScriptHash,
                          out: seq<Unspent>)
    requires Confirmed.Coupled(outputs, utxos) && Disjoint(pool, outputs) && SpendsUnspent(pool, outputs, utxos)
    requires Funds(utxos, pool, sh) < TWO_63
    requires IsUnspent(utxos, outputs, pool, sh, out)
    ensures TotalUnspent(out) == Balance(utxos, sh) + Delta(pool, outputs, sh) + ChainedValue(pool, sh)
  {
    hide View, SpentBy, FreeKeys, ScriptKeys, Unclaimed, SpentFrom, Chained, IsUnspent, Disjoint, TotalUnspent,
         SpendsUnspent, Confirmed.Coupled, Sum;
    assert forall o | o in SpentFrom(pool, outputs, sh) :: 0 <= Paying(pool, outputs)(o);
    ListingTotal(outputs, utxos, pool, sh, out);
    ConfirmedSplit(utxos, pool, sh);
    SpentFromSum(pool, outputs, utxos, sh);
    SumNonNegative(Chained(pool, sh), InPool(pool));
    SumNonNegative(Unclaimed(pool, sh), InView(pool));
    SignedSum(Unclaimed(pool, sh), InView(pool));
    SignedSum(SpentFrom(pool, outputs, sh), Paying(pool, outputs));
  }

  /** No pending transaction spends another. */
  ghost predicate Flat(pool: Pool) {
    forall id | id in pool :: Parents(pool[id]) !! pool.Keys
  }

  /** Without chains in the pool the listing and the two balances agree exactly. */
  lemma FlatAccounting(outputs: map<OutPoint, Output>, utxos: map<UtxoKey, u64>, pool: Pool, sh: ScriptHash,
                       out: seq<Unspent>)
    requires Confirmed.Coupled(outputs, utxos) && Disjoint(pool, outputs) && SpendsUnspent(pool, outputs, utxos)
    requires Funds(utxos, pool, sh) < TWO_63 && Flat(pool)
    requires IsUnspent(utxos, outputs, pool, sh, out)
    ensures TotalUnspent(out) == Balance(utxos, sh) + Delta(pool, outputs, sh)
  {
    assert Chained(pool, sh) == {} by { FlatUnchained(pool, sh); }
    hide *;
    assert ChainedValue(pool, sh) == 0 by { UnchainedValue(pool, sh); }
    BalanceAccounting(outputs, utxos, pool, sh, out);
  }

  lemma FlatUnchained(pool: Pool, sh: ScriptHash)
    requires Flat(pool)
    ensures Chained(pool, sh) == {}
  {
    forall id, o | id in pool && o in Spends(pool[id]) ensures o.txid !in pool {
      assert o.txid in Parents(pool[id]);
    }
  }

  lemma UnchainedValue(pool: Pool, sh: ScriptHash)
    requires Chained(pool, sh) == {}
    ensures ChainedValue(pool, sh) == 0
  {
  }
}
