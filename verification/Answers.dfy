/** What the answers to clients mean, in terms of the chain, the pending transactions and their names. */
module Answers {
  import opened Announce
  import opened Chain
  import opened Chronicle
  import opened Confirmed
  import opened Effects
  import opened Fees
  import opened Model
  import opened Notify
  import opened Pending
  import opened Queries
  import opened Sorting
  import opened Statuses
  import opened Sums
  import Reorg
  import Status

  // ---- Fees and heights -------------------------------------------------------------------

  predicate KnownOutput(outputs: map<OutPoint, Output>, pool: Pool, o: OutPoint) {
    o in outputs || (o.txid in pool && o.vout < |pool[o.txid].outputs|)
  }

  /** The value of the output that the txid stands for. */
  function NamedValue(naming: Naming, o: OutPoint): nat {
    if o.vout < |naming(o.txid).outputs| then naming(o.txid).outputs[o.vout].value else 0
  }

  ghost function NamedPaid(naming: Naming): OutPoint -> int {
    o => NamedValue(naming, o)
  }

  /** The same, counting nothing for an output that is not known. */
  ghost function NamedKnown(naming: Naming, outputs: map<OutPoint, Output>, pool: Pool): OutPoint -> int {
    o => if KnownOutput(outputs, pool, o) then NamedValue(naming, o) else 0
  }

  function OutputIndices(tx: Tx): set<OutPoint> {
    set i | 0 <= i < |tx.outputs| :: OutPoint(tx.txid, i)
  }

  function Excess(paid: int, given: int): nat {
    if paid < given then 0 else paid - given
  }

  lemma KnownMeaning(pool: Pool, outputs: map<OutPoint, Output>, o: OutPoint)
    ensures FindOutput(pool, outputs, o).Some? <==> KnownOutput(outputs, pool, o)
  {
  }

  lemma ValueMeaning(naming: Naming, pool: Pool, outputs: map<OutPoint, Output>, o: OutPoint)
    requires OutputsNamed(naming, outputs) && TxsNamed(naming, pool)
    ensures ValueAt(pool, outputs, o) == NamedKnown(naming, outputs, pool)(o)
  {
  }

  lemma {:induction false} TotalMeaning(naming: Naming, tx: Tx, n: nat)
    requires Named(naming, tx) && n <= |tx.outputs|
    ensures Total(tx.outputs[..n]) == Sum(set i | 0 <= i < n :: OutPoint(tx.txid, i), NamedPaid(naming))
  {
    var all := set i | 0 <= i < n :: OutPoint(tx.txid, i);
    if n == 0 {
      assert all == {};
    } else {
      var rest := set i | 0 <= i < n - 1 :: OutPoint(tx.txid, i);
      TotalMeaning(naming, tx, n - 1);
      assert tx.outputs[..n][..n - 1] == tx.outputs[..n - 1];
      assert all == rest + {OutPoint(tx.txid, n - 1)};
      SumAdd(rest, OutPoint(tx.txid, n - 1), NamedPaid(naming));
    }
  }

  /**
   * The fee is what the transactions behind the distinct prevouts paid into them less the outputs, in saturating
   * arithmetic; a prevout that is neither stored nor pending counts nothing.
   */
  lemma FeeMeaning(naming: Naming, pool: Pool, outputs: map<OutPoint, Output>, tx: Tx)
    requires OutputsNamed(naming, outputs) && TxsNamed(naming, pool) && Named(naming, tx)
    ensures Fee(pool, outputs, tx)
         == Excess(Min(U64_MAX, Sum(Spends(tx), NamedKnown(naming, outputs, pool))),
                   Min(U64_MAX, Sum(OutputIndices(tx), NamedPaid(naming))))
  {
    hide Sum, Spends, OutputsNamed, TxsNamed, NamedKnown, ValueAt;
    forall o ensures Paying(pool, outputs)(o) == NamedKnown(naming, outputs, pool)(o) {
      ValueMeaning(naming, pool, outputs, o);
    }
    SumEqual(Spends(tx), Paying(pool, outputs), NamedKnown(naming, outputs, pool));
    TotalMeaning(naming, tx, |tx.outputs|);
    assert tx.outputs[..|tx.outputs|] == tx.outputs;
  }

  /** With all prevouts known and amounts that fit, it is exactly inputs less outputs. */
  lemma KnownFee(naming: Naming, pool: Pool, outputs: map<OutPoint, Output>, tx: Tx)
    requires OutputsNamed(naming, outputs) && TxsNamed(naming, pool) && Named(naming, tx)
    requires FeeKnown(pool, outputs, tx)
    requires Sum(Spends(tx), NamedPaid(naming)) <= U64_MAX && Sum(OutputIndices(tx), NamedPaid(naming)) <= U64_MAX
    ensures Fee(pool, outputs, tx)
         == Excess(Sum(Spends(tx), NamedPaid(naming)), Sum(OutputIndices(tx), NamedPaid(naming)))
  {
    hide Sum, Spends, OutputsNamed, TxsNamed, OutputIndices, KnownOutput;
    FeeMeaning(naming, pool, outputs, tx);
    forall o | o in Spends(tx) ensures KnownOutput(outputs, pool, o) {
      KnownMeaning(pool, outputs, o);
    }
    SumEqual(Spends(tx), NamedPaid(naming), NamedKnown(naming, outputs, pool));
  }

  /** The histogram counts the pending transactions with known prevouts that pay at least one unit per virtual byte. */
  lemma EligibleMeaning(naming: Naming, pool: Pool, outputs: map<OutPoint, Output>, id: Txid)
    requires OutputsNamed(naming, outputs) && TxsNamed(naming, pool)
    ensures id in Eligible(pool, outputs) <==>
      && id in pool
      && (forall i | 0 <= i < |pool[id].inputs| && pool[id].inputs[i] != NULL_OUTPOINT ::
            KnownOutput(outputs, pool, pool[id].inputs[i]))
      && 4 * Excess(Min(U64_MAX, Sum(Spends(pool[id]), NamedPaid(naming))),
                    Min(U64_MAX, Sum(OutputIndices(pool[id]), NamedPaid(naming)))) >= pool[id].weight
  {
    hide Sum, OutputIndices, KnownOutput, Fee;
    if id in pool {
      var tx := pool[id];
      forall o ensures FindOutput(pool, outputs, o).Some? <==> KnownOutput(outputs, pool, o) {
        KnownMeaning(pool, outputs, o);
      }
      assert forall i | 0 <= i < |tx.inputs| && tx.inputs[i] != NULL_OUTPOINT :: tx.inputs[i] in Spends(tx);
      if FeeKnown(pool, outputs, tx) {
        FeeMeaning(naming, pool, outputs, tx);
        SumEqual(Spends(tx), NamedPaid(naming), NamedKnown(naming, outputs, pool));
        RatePositive(pool, outputs, tx);
      }
    }
  }

  lemma RatePositive(pool: Pool, outputs: map<OutPoint, Output>, tx: Tx)
    ensures Rate(pool, outputs, tx) > 0 <==> 4 * Fee(pool, outputs, tx) >= tx.weight
  {
    hide Fee;
    RateBounds(pool, outputs, tx);
    var r, v, fee := Rate(pool, outputs, tx), Vsize(tx), Fee(pool, outputs, tx);
    if r > 0 {
      assert r * v >= v;
    }
  }

  /** -1 if some prevout is not a stored output, and 0 otherwise. */
  ghost function HeightShown(outputs: map<OutPoint, Output>, tx: Tx): int {
    if exists i :: 0 <= i < |tx.inputs| && tx.inputs[i] != NULL_OUTPOINT && tx.inputs[i] !in outputs then -1 else 0
  }

  ghost function FeeShown(naming: Naming, outputs: map<OutPoint, Output>, pool: Pool, tx: Tx): nat {
    Excess(Min(U64_MAX, Sum(Spends(tx), NamedKnown(naming, outputs, pool))),
           Min(U64_MAX, Sum(OutputIndices(tx), NamedPaid(naming))))
  }

  lemma HeightMeaning(outputs: map<OutPoint, Output>, tx: Tx)
    ensures MempoolHeight(outputs, tx) == HeightShown(outputs, tx)
  {
  }

  /** The mempool answer lists, once each and by txid, the pending transactions that touch the script hash. */
  lemma MempoolMeaning(naming: Naming, st: State, sh: ScriptHash, out: seq<MempoolEntry>)
    requires Consistent(naming, st) && IsMempool(st.pool, st.ix.outputs, sh, out)
    ensures forall e :: e in out <==>
      && e.txid in st.pool && Touches(st.ix.outputs, st.pool, st.pool[e.txid], sh)
      && e.height == HeightShown(st.ix.outputs, st.pool[e.txid])
      && e.fee == FeeShown(naming, st.ix.outputs, st.pool, st.pool[e.txid])
    ensures forall i, j | 0 <= i < j < |out| :: out[i].txid < out[j].txid
  {
    hide Touches, Touching, Fee, FeeShown, HeightShown, MempoolHeight, Named;
    var all := MempoolEntries(st.pool, st.ix.outputs, sh);
    forall e ensures e in out <==>
      && e.txid in st.pool && Touches(st.ix.outputs, st.pool, st.pool[e.txid], sh)
      && e.height == HeightShown(st.ix.outputs, st.pool[e.txid])
      && e.fee == FeeShown(naming, st.ix.outputs, st.pool, st.pool[e.txid])
    {
      assert e in out <==> e in multiset(out);
      EntryMeaning(naming, st, sh, e);
    }
    forall i, j | 0 <= i < j < |out| ensures out[i].txid < out[j].txid {
      DistinctElements(out, all);
      assert out[i] in multiset(out) && out[j] in multiset(out);
    }
  }

  lemma EntryMeaning(naming: Naming, st: State, sh: ScriptHash, e: MempoolEntry)
    requires Consistent(naming, st)
    ensures e in MempoolEntries(st.pool, st.ix.outputs, sh) <==>
      && e.txid in st.pool && Touches(st.ix.outputs, st.pool, st.pool[e.txid], sh)
      && e.height == HeightShown(st.ix.outputs, st.pool[e.txid])
      && e.fee == FeeShown(naming, st.ix.outputs, st.pool, st.pool[e.txid])
  {
    hide Touches, Touching, Fee, Sum, HeightShown, MempoolHeight, Named, NamedKnown, NamedPaid, OutputIndices;
    TouchingMeaning(naming, st.pool, st.ix.outputs, sh, e.txid);
    if e.txid in st.pool {
      FeeMeaning(naming, st.pool, st.ix.outputs, st.pool[e.txid]);
      HeightMeaning(st.ix.outputs, st.pool[e.txid]);
    }
  }

  // ---- The unconfirmed balance ------------------------------------------------------------

  /** Outputs of pending transactions to the script hash that no pending transaction spends. */
  ghost function PendingTo(pool: Pool, sh: ScriptHash): set<OutPoint> {
    set id, v | id in pool && 0 <= v < |pool[id].outputs| && pool[id].outputs[v].scriptHash == sh
      && (forall x | x in pool :: OutPoint(id, v) !in Spends(pool[x])) :: OutPoint(id, v)
  }

  /** Known outputs of the script hash that an input of a pending transaction spends. */
  function TakenFrom(pool: Pool, outputs: map<OutPoint, Output>, sh: ScriptHash): set<OutPoint> {
    set id, i | id in pool && 0 <= i < |pool[id].inputs| && pool[id].inputs[i] != NULL_OUTPOINT
      && PaidKnown(outputs, pool, pool[id].inputs[i], sh) :: pool[id].inputs[i]
  }

  lemma PendingToMeaning(naming: Naming, pool: Pool, sh: ScriptHash)
    requires TxsNamed(naming, pool)
    ensures Unclaimed(pool, sh) == PendingTo(pool, sh)
    ensures forall o | o in Unclaimed(pool, sh) :: InView(pool)(o) == NamedValue(naming, o)
  {
    hide Spends;
    forall o ensures o in Unclaimed(pool, sh) <==> o in PendingTo(pool, sh) {
      assert o == OutPoint(o.txid, o.vout);
    }
  }

  lemma TakenMeaning(pool: Pool, outputs: map<OutPoint, Output>, sh: ScriptHash, o: OutPoint)
    ensures o in TakenFrom(pool, outputs, sh) <==> o in SpentBy(pool) && PaidKnown(outputs, pool, o, sh)
  {
    assert forall id, i | id in pool && 0 <= i < |pool[id].inputs| && pool[id].inputs[i] != NULL_OUTPOINT ::
      pool[id].inputs[i] in Spends(pool[id]);
    if o in SpentBy(pool) && PaidKnown(outputs, pool, o, sh) {
      var id :| id in pool && o in Spends(pool[id]);
      var i :| 0 <= i < |pool[id].inputs| && pool[id].inputs[i] != NULL_OUTPOINT && pool[id].inputs[i] == o;
    }
  }

  lemma TakenFromMeaning(naming: Naming, pool: Pool, outputs: map<OutPoint, Output>, sh: ScriptHash)
    requires OutputsNamed(naming, outputs) && TxsNamed(naming, pool)
    ensures SpentFrom(pool, outputs, sh) == TakenFrom(pool, outputs, sh)
    ensures forall o | o in SpentFrom(pool, outputs, sh) :: Paying(pool, outputs)(o) == NamedValue(naming, o)
  {
    hide View, Resolve;
    forall o ensures o in SpentFrom(pool, outputs, sh) <==> o in TakenFrom(pool, outputs, sh) {
      ResolveMeaning(naming, pool, outputs, o, sh);
      TakenMeaning(pool, outputs, sh, o);
    }
    forall o | o in SpentFrom(pool, outputs, sh) ensures Paying(pool, outputs)(o) == NamedValue(naming, o) {
      ResolveMeaning(naming, pool, outputs, o, sh);
      ValueMeaning(naming, pool, outputs, o);
    }
  }

  /** Sums of values read as signed numbers agree with the true sums modulo 2^64. */
  lemma {:induction false} SignedAgrees(s: set<OutPoint>, f: OutPoint -> int, g: OutPoint -> int)
    requires forall o | o in s :: f(o) == g(o)
    ensures (Sum(s, Signed(f)) - Sum(s, g)) % TWO_64 == 0
  {
    if s != {} {
      var o :| o in s;
      SumRemove(s, o, Signed(f));
      SumRemove(s, o, g);
      SignedAgrees(s - {o}, f, g);
      var rest := Sum(s - {o}, Signed(f)) - Sum(s - {o}, g);
      assert Signed(f)(o) - g(o) == 0 || Signed(f)(o) - g(o) == 0 - TWO_64;
    }
  }

  lemma WrapAgrees(x: int, y: int)
    requires (x - y) % TWO_64 == 0
    ensures Wrap(x) == Wrap(y)
  {
  }

  /**
   * The unconfirmed balance of a script hash is what pending transactions pay it and none of them spends, less
   * the known outputs of it that they spend, each once, wrapped to 64 bits.
   */
  lemma DeltaMeaning(naming: Naming, pool: Pool, outputs: map<OutPoint, Output>, sh: ScriptHash)
    requires OutputsNamed(naming, outputs) && TxsNamed(naming, pool)
    ensures Delta(pool, outputs, sh)
         == Wrap(Sum(PendingTo(pool, sh), NamedPaid(naming)) - Sum(TakenFrom(pool, outputs, sh), NamedPaid(naming)))
  {
    hide Wrap, Sum, Signed, Unclaimed, SpentFrom, PendingTo, TakenFrom, InView, Paying, OutputsNamed, TxsNamed;
    PendingToMeaning(naming, pool, sh);
    TakenFromMeaning(naming, pool, outputs, sh);
    var a, b := Unclaimed(pool, sh), SpentFrom(pool, outputs, sh);
    SignedAgrees(a, InView(pool), NamedPaid(naming));
    SignedAgrees(b, Paying(pool, outputs), NamedPaid(naming));
    WrapAgrees(Sum(a, Signed(InView(pool))) - Sum(b, Signed(Paying(pool, outputs))),
               Sum(a, NamedPaid(naming)) - Sum(b, NamedPaid(naming)));
  }

  // ---- History and listing after a run ----------------------------------------------------

  /** The same as `Touches`, with the stored outputs read off the chain. */
  ghost predicate Concerns(ps: seq<Placed>, pool: Pool, tx: Tx, sh: ScriptHash) {
    || (exists i :: 0 <= i < |tx.outputs| && tx.outputs[i].scriptHash == sh)
    || (exists i :: 0 <= i < |tx.inputs| && tx.inputs[i] != NULL_OUTPOINT
          && (PaidTo(ps, tx.inputs[i], sh)
              || (tx.inputs[i].txid in pool && PaysScript(pool[tx.inputs[i].txid], tx.inputs[i], sh))))
  }

  lemma ConcernsMeaning(ps: seq<Placed>, outputs: map<OutPoint, Output>, pool: Pool, tx: Tx, sh: ScriptHash)
    requires SaysOutputs(ps, outputs)
    ensures Touches(outputs, pool, tx, sh) <==> Concerns(ps, pool, tx, sh)
  {
    hide SaysOutputs, PaidTo;
    forall o ensures PaidTo(ps, o, sh) <==> o in outputs && outputs[o].scriptHash == sh {
      PaidRecord(ps, outputs, o, sh);
    }
  }

  /** The surviving transactions of a run, and what the index says of them. */
  lemma RunMeaning(naming: Naming, base: nat, events: seq<Event>)
    requires Reorg.StackOrdered(naming, base, BlockEvents(events)) && forall e | e in events :: EventNamed(naming, e)
    ensures var st, ps := Model.Run(events), ChainPlaced(base, Reorg.Survivors(BlockEvents(events)));
      && Consistent(naming, st) && Chronicled(ps, st.ix)
      && forall sh, e :: multiset(Get(st.ix.history, sh))[e] == EntryCount(ps, sh, e)
  {
    hide *;
    RunIndex(events);
    RunChronicled(naming, base, BlockEvents(events));
    RunConsistent(naming, events);
  }

  /**
   * After any stack-ordered run the history answer holds, as often as they occur: each funding and each known
   * spend in the surviving chain, and each pending transaction that pays or spends from the script hash.
   */
  lemma HistoryMeaning(naming: Naming, base: nat, events: seq<Event>, sh: ScriptHash, out: seq<TxEntry>, e: TxEntry)
    requires Reorg.StackOrdered(naming, base, BlockEvents(events)) && forall e | e in events :: EventNamed(naming, e)
    requires var st := Model.Run(events); IsHistory(Get(st.ix.history, sh), st.pool, st.ix.outputs, sh, out)
    ensures var st, ps := Model.Run(events), ChainPlaced(base, Reorg.Survivors(BlockEvents(events)));
      multiset(out)[e] == EntryCount(ps, sh, e)
        + if e.height == 0 && e.sequence == 0 && e.txid in st.pool && Concerns(ps, st.pool, st.pool[e.txid], sh)
          then 1 else 0
  {
    hide *;
    RunMeaning(naming, base, events);
    var st, ps := Model.Run(events), ChainPlaced(base, Reorg.Survivors(BlockEvents(events)));
    AnswerMeaning(naming, ps, st, sh, out, e);
  }

  lemma AnswerMeaning(naming: Naming, ps: seq<Placed>, st: State, sh: ScriptHash, out: seq<TxEntry>, e: TxEntry)
    requires Consistent(naming, st) && Chronicled(ps, st.ix)
    requires IsHistory(Get(st.ix.history, sh), st.pool, st.ix.outputs, sh, out)
    ensures multiset(out)[e] == multiset(Get(st.ix.history, sh))[e]
      + if e.height == 0 && e.sequence == 0 && e.txid in st.pool && Concerns(ps, st.pool, st.pool[e.txid], sh)
        then 1 else 0
  {
    hide Touches, Touching, Concerns, SaysOutputs, SaysUtxos, SaysKeys, Sorted;
    TouchingMeaning(naming, st.pool, st.ix.outputs, sh, e.txid);
    if e.txid in st.pool {
      ConcernsMeaning(ps, st.ix.outputs, st.pool, st.pool[e.txid], sh);
    }
    assert e in PoolHistory(st.pool, st.ix.outputs, sh)
      <==> e.height == 0 && e.sequence == 0 && e.txid in Touching(st.pool, st.ix.outputs, sh);
  }

  /** Confirmed entries ascend by height, unconfirmed ones follow; within a height they ascend by index, then txid. */
  lemma HistoryOrder(confirmed: seq<TxEntry>, pool: Pool, outputs: map<OutPoint, Output>, sh: ScriptHash,
                     out: seq<TxEntry>, i: nat, j: nat)
    requires IsHistory(confirmed, pool, outputs, sh, out) && HeightsBelow(confirmed, U32_MAX) && i < j < |out|
    ensures out[j].height == 0 || 0 < out[i].height <= out[j].height
    ensures out[i].height == out[j].height ==>
      out[i].sequence < out[j].sequence || (out[i].sequence == out[j].sequence && out[i].txid <= out[j].txid)
  {
    hide PoolHistory;
    PoolHeights(pool, outputs, sh);
    forall e | e in out ensures e.height < U32_MAX {
      assert e in multiset(out);
    }
  }

  // ---- The status -------------------------------------------------------------------------

  /** The pairs of a text are those of a history answer followed by those of a mempool answer. */
  ghost predicate Lists(read: seq<(nat, int)>, h: seq<TxEntry>, ps: seq<Status.Entry>) {
    && |read| == |h| + |ps|
    && (forall i | 0 <= i < |h| :: read[i] == (h[i].txid as int, h[i].height))
    && (forall i | 0 <= i < |ps| :: read[|h| + i] == (ps[i].0 as int, ps[i].1))
  }

  /** A status is the digest of a text from which the two answers it was made from can be read. */
  lemma StatusRead(hash: Digest, st: State, sh: ScriptHash, status: Option<string>)
    requires Current(hash, st, sh, status)
    ensures exists h, ps ::
      && HistoryNow(st, sh, h) && PairsNow(st, sh, ps) && (status.None? <==> h == [] && ps == [])
      && (status.Some? ==> exists text :: status.value == hash(text) && Lists(Status.Read(text), h, ps))
  {
    hide HistoryNow, PairsNow, Status.Text, Status.Read;
    var h, ps :| HistoryNow(st, sh, h) && PairsNow(st, sh, ps) && status == StatusHash(hash, h, ps);
    var entries := Status.HistoryPairs(h) + ps;
    Status.ReadText(entries);
    assert Lists(Status.Read(Status.Text(entries)), h, ps);
    if status.Some? {
      assert status.value == hash(Status.Text(entries));
    }
  }

  lemma NoEntries(st: State, sh: ScriptHash, h: seq<TxEntry>, ps: seq<Status.Entry>)
    requires HistoryNow(st, sh, h) && PairsNow(st, sh, ps)
    ensures h == [] && ps == [] <==> Get(st.ix.history, sh) == [] && Touching(st.pool, st.ix.outputs, sh) == {}
  {
    hide Touching, MempoolHeight, Sorted;
    var ids := Touching(st.pool, st.ix.outputs, sh);
    assert |multiset(h)| == |h| && |multiset(ps)| == |ps|;
    assert |multiset(Get(st.ix.history, sh))| == |Get(st.ix.history, sh)|;
    if ids == {} {
      assert PoolHistory(st.pool, st.ix.outputs, sh) == {} && Entries(st.pool, st.ix.outputs, sh) == {};
    } else {
      var id :| id in ids;
      assert TxEntry(id, 0, 0) in PoolHistory(st.pool, st.ix.outputs, sh);
      assert TxEntry(id, 0, 0) in multiset(h);
    }
  }

  /** After any stack-ordered run there is no status exactly if nothing concerns the script hash. */
  lemma StatusPresence(naming: Naming, base: nat, events: seq<Event>, hash: Digest, sh: ScriptHash,
                       status: Option<string>)
    requires Reorg.StackOrdered(naming, base, BlockEvents(events)) && forall e | e in events :: EventNamed(naming, e)
    requires Current(hash, Model.Run(events), sh, status)
    ensures var st, ps := Model.Run(events), ChainPlaced(base, Reorg.Survivors(BlockEvents(events)));
      status.None? <==>
        && (forall k: HistoryKey | k.scriptHash == sh :: !InHistory(ps, k))
        && (forall id | id in st.pool :: !Concerns(ps, st.pool, st.pool[id], sh))
  {
    hide *;
    RunMeaning(naming, base, events);
    var ps := ChainPlaced(base, Reorg.Survivors(BlockEvents(events)));
    PresenceMeaning(naming, ps, hash, Model.Run(events), sh, status);
  }

  lemma PresenceMeaning(naming: Naming, ps: seq<Placed>, hash: Digest, st: State, sh: ScriptHash,
                        status: Option<string>)
    requires Consistent(naming, st) && Chronicled(ps, st.ix)
    requires forall sh, e :: multiset(Get(st.ix.history, sh))[e] == EntryCount(ps, sh, e)
    requires Current(hash, st, sh, status)
    ensures status.None? <==>
      && (forall k: HistoryKey | k.scriptHash == sh :: !InHistory(ps, k))
      && (forall id | id in st.pool :: !Concerns(ps, st.pool, st.pool[id], sh))
  {
    hide HistoryNow, PairsNow, Touching, Touches, Concerns, InHistory, SaysOutputs, SaysUtxos, SaysKeys, Status.Text;
    var h, entries :| HistoryNow(st, sh, h) && PairsNow(st, sh, entries) && status == StatusHash(hash, h, entries);
    NoEntries(st, sh, h, entries);
    NoKeys(ps, st, sh);
    forall id | id in st.pool
      ensures id in Touching(st.pool, st.ix.outputs, sh) <==> Concerns(ps, st.pool, st.pool[id], sh)
    {
      TouchingMeaning(naming, st.pool, st.ix.outputs, sh, id);
      ConcernsMeaning(ps, st.ix.outputs, st.pool, st.pool[id], sh);
    }
  }

  lemma NoKeys(ps: seq<Placed>, st: State, sh: ScriptHash)
    requires forall e :: multiset(Get(st.ix.history, sh))[e] == EntryCount(ps, sh, e)
    ensures Get(st.ix.history, sh) == [] <==> forall k: HistoryKey | k.scriptHash == sh :: !InHistory(ps, k)
  {
    hide InHistory;
    var own := Get(st.ix.history, sh);
    if k: HistoryKey :| k.scriptHash == sh && InHistory(ps, k) {
      match k {
        case HistoryKey(_, _, Fund, _, _) => assert EntryCount(ps, sh, EntryOf(k)) > 0;
        case HistoryKey(_, _, Spend, _, _) => assert EntryCount(ps, sh, EntryOf(k)) > 0;
      }
      assert EntryOf(k) in multiset(own);
    } else {
      assert forall e :: EntryCount(ps, sh, e) == 0;
    }
  }
}
