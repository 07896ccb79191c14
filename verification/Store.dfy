/** The persistent trees and their queries. */
module Store {
  import opened Chain
  import opened Codecs
  import opened Model
  import opened Queries
  import opened Sums

  class PersistentIndex {
    var history: set<HistoryKey>
    var outputs: map<OutPoint, Output>
    var txs: map<Txid, Tx>
    var utxos: map<UtxoKey, u64>
    var journal: map<JournalKey, Payload>
    var pendingTxids: seq<Txid>
    var tip: nat

    /** A database that did not exist before. */
    constructor ()
      ensures history == {} && outputs == map[] && txs == map[] && utxos == map[] && journal == map[]
      ensures pendingTxids == [] && tip == 0
    {
      history, outputs, txs, utxos, journal, pendingTxids, tip := {}, map[], map[], map[], map[], [], 0;
    }

    method SetTipHeight(height: nat)
      modifies this`tip
      ensures tip == height
    {
      tip := height;
    }

    method StoreTx(tx: Tx)
      modifies this`txs
      ensures txs == old(txs)[tx.txid := tx]
    {
      txs := txs[tx.txid := tx];
    }

    method DeleteTx(txid: Txid)
      modifies this`txs
      ensures txs == old(txs) - {txid}
    {
      txs := txs - {txid};
    }

    method StorePendingTxid(txid: Txid)
      modifies this`pendingTxids
      ensures pendingTxids == List(old(pendingTxids), txid)
    {
      if txid !in pendingTxids {
        pendingTxids := pendingTxids + [txid];
      }
    }

    /** Keeps the order of the remaining txids. */
    method DeletePendingTxid(txid: Txid)
      modifies this`pendingTxids
      ensures pendingTxids == Unlist(old(pendingTxids), {txid})
    {
      var kept := [];
      for i := 0 to |pendingTxids|
        invariant kept == Unlist(pendingTxids[..i], {txid})
        invariant pendingTxids == old(pendingTxids)
      {
        assert pendingTxids[..i + 1][..i] == pendingTxids[..i];
        if pendingTxids[i] != txid {
          kept := kept + [pendingTxids[i]];
        }
      }
      assert pendingTxids[..|pendingTxids|] == pendingTxids;
      pendingTxids := kept;
    }

    method StoreOutput(o: OutPoint, out: Output)
      modifies this`outputs, this`utxos
      ensures outputs == old(outputs)[o := out]
      ensures utxos == old(utxos)[UtxoKey(out.scriptHash, o) := out.value]
    {
      outputs := outputs[o := out];
      utxos := utxos[UtxoKey(out.scriptHash, o) := out.value];
    }

    method DeleteOutput(o: OutPoint)
      modifies this`outputs
      ensures outputs == old(outputs) - {o}
    {
      outputs := outputs - {o};
    }

    method DeleteUtxo(sh: ScriptHash, o: OutPoint)
      modifies this`utxos
      ensures utxos == old(utxos) - {UtxoKey(sh, o)}
    {
      utxos := utxos - {UtxoKey(sh, o)};
    }

    method StoreJournalAction(height: nat, sequence: nat, payload: Payload) returns (key: JournalKey)
      modifies this`journal
      ensures key == JournalKey(height, sequence) && journal == old(journal)[key := payload]
    {
      key := JournalKey(height, sequence);
      journal := journal[key := payload];
    }

    method DeleteJournalKey(key: JournalKey)
      modifies this`journal
      ensures journal == old(journal) - {key}
    {
      journal := journal - {key};
    }

    method StoreHistoryEntry(sh: ScriptHash, height: nat, txid: Txid, sequence: nat, kind: HistoryKind)
      returns (key: HistoryKey)
      modifies this`history
      ensures key == HistoryKey(sh, height, kind, txid, sequence) && history == old(history) + {key}
    {
      key := HistoryKey(sh, height, kind, txid, sequence);
      history := history + {key};
    }

    method DeleteHistoryKey(key: HistoryKey)
      modifies this`history
      ensures history == old(history) - {key}
    {
      history := history - {key};
    }

    /** Adds up a prefix scan in u64 arithmetic that saturates. */
    method BalanceForScript(sh: ScriptHash) returns (total: u64)
      ensures total == Balance(utxos, sh)
    {
      total := 0;
      var all := ScriptKeys(utxos, sh);
      var rest := all;
      while rest != {}
        invariant rest <= all
        invariant total == Min(U64_MAX, Sum(all - rest, Holding(utxos)))
        decreases rest
      {
        var k :| k in rest;
        assert all - (rest - {k}) == all - rest + {k};
        SumAdd(all - rest, k, Holding(utxos));
        SumNonNegative(all - rest, Holding(utxos));
        total := SaturatingAdd(total, utxos[k]);
        rest := rest - {k};
      }
      assert all - {} == all;
    }

    /** Reads each key of a prefix scan back, in tree order, and looks its height up; a missing output is an error. */
    method ListUnspentForScript(sh: ScriptHash) returns (r: Result<seq<Unspent>>)
      ensures r.Err? <==> exists k :: k in ScriptKeys(utxos, sh) && k.outpoint !in outputs
      ensures r.Ok? ==>
        multiset(r.value) == multiset(set k | k in ScriptKeys(utxos, sh) :: UnspentOf(utxos, outputs, k))
      ensures r.Ok? ==> InTreeOrder(sh, r.value)
    {
      hide Place, EncodeUtxoKey, Precedes;
      var all := ScriptKeys(utxos, sh);
      var rest, out := all, [];
      while rest != {}
        invariant rest <= all
        invariant forall k | k in all - rest :: k.outpoint in outputs
        invariant multiset(out) == multiset(set k | k in all - rest :: UnspentOf(utxos, outputs, k))
        invariant InTreeOrder(sh, out)
        invariant forall u, l | u in out && l in rest :: Place(UtxoKey(sh, u.outpoint)) <= Place(l)
        decreases rest
      {
        FirstKey(rest);
        var k :| k in rest && IsFirst(k, rest);
        if k.outpoint !in outputs {
          return Err("missing output for unspent");
        }
        var u := Unspent(k.outpoint, utxos[k], outputs[k.outpoint].height);
        assert k == UtxoKey(sh, u.outpoint);
        ScannedOne(utxos, outputs, sh, rest, k, out, u);
        ScannedLast(sh, out, u);
        out := out + [u];
        rest := rest - {k};
      }
      assert all - {} == all;
      return Ok(out);
    }
  }

  /** No entry stands behind one whose key comes later in the tree. */
  ghost predicate InTreeOrder(sh: ScriptHash, us: seq<Unspent>) {
    forall i, j | 0 <= i < j < |us| ::
      !Precedes(EncodeUtxoKey(UtxoKey(sh, us[j].outpoint)), EncodeUtxoKey(UtxoKey(sh, us[i].outpoint)))
  }

  lemma ScannedLast(sh: ScriptHash, us: seq<Unspent>, u: Unspent)
    requires InTreeOrder(sh, us)
    requires forall v | v in us :: Place(UtxoKey(sh, v.outpoint)) <= Place(UtxoKey(sh, u.outpoint))
    ensures InTreeOrder(sh, us + [u])
  {
    hide EncodeUtxoKey, Precedes, FromBytes;
    forall i | 0 <= i < |us|
      ensures !Precedes(EncodeUtxoKey(UtxoKey(sh, u.outpoint)), EncodeUtxoKey(UtxoKey(sh, us[i].outpoint)))
    {
      NumberOrder(EncodeUtxoKey(UtxoKey(sh, u.outpoint)), EncodeUtxoKey(UtxoKey(sh, us[i].outpoint)));
    }
  }

  /** One more key of a scan is one more entry of the listing. */
  lemma ScannedOne(utxos: map<UtxoKey, u64>, outputs: map<OutPoint, Output>, sh: ScriptHash,
                   rest: set<UtxoKey>, k: UtxoKey, out: seq<Unspent>, u: Unspent)
    requires rest <= ScriptKeys(utxos, sh) && k in rest && u == UnspentOf(utxos, outputs, k)
    requires multiset(out) == multiset(set l | l in ScriptKeys(utxos, sh) - rest :: UnspentOf(utxos, outputs, l))
    ensures multiset(out + [u])
         == multiset(set l | l in ScriptKeys(utxos, sh) - (rest - {k}) :: UnspentOf(utxos, outputs, l))
  {
    var all := ScriptKeys(utxos, sh);
    var before := set l | l in all - rest :: UnspentOf(utxos, outputs, l);
    forall l | l in all - rest ensures UnspentOf(utxos, outputs, l) != u {
      assert l.scriptHash == sh && k.scriptHash == sh;
    }
    assert all - (rest - {k}) == all - rest + {k};
    assert (set l | l in all - (rest - {k}) :: UnspentOf(utxos, outputs, l)) == before + {u};
    assert multiset(before + {u}) == multiset(before) + multiset{u};
  }
}
