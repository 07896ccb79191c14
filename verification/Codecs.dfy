/** The fixed-width big-endian codecs of the store, and why tree order and prefix scans can be trusted. */
module Codecs {
  import opened Chain

  newtype byte = b: int | 0 <= b < 256

  type bytes = seq<byte>

  // ---- Big-endian numbers -------------------------------------------------------------------

  function Limit(width: nat): nat {
    if width == 0 then 1 else 256 * Limit(width - 1)
  }

  function ToBytes(n: nat, width: nat): (bs: bytes)
    ensures |bs| == width
  {
    if width == 0 then [] else ToBytes(n / 256, width - 1) + [(n % 256) as byte]
  }

  function FromBytes(bs: bytes): nat {
    if bs == [] then 0 else 256 * FromBytes(bs[..|bs| - 1]) + bs[|bs| - 1] as nat
  }

  lemma {:induction false} FromToBytes(n: nat, width: nat)
    requires n < Limit(width)
    ensures FromBytes(ToBytes(n, width)) == n
  {
    if width > 0 {
      var bs := ToBytes(n / 256, width - 1);
      FromToBytes(n / 256, width - 1);
      assert (bs + [(n % 256) as byte])[..width - 1] == bs;
    }
  }

  lemma {:induction false} ToFromBytes(bs: bytes)
    ensures FromBytes(bs) < Limit(|bs|) && ToBytes(FromBytes(bs), |bs|) == bs
  {
    if bs != [] {
      ToFromBytes(bs[..|bs| - 1]);
      assert bs == bs[..|bs| - 1] + [bs[|bs| - 1]];
    }
  }

  /** The order in which sled iterates keys of equal length. */
  predicate Precedes(a: bytes, b: bytes)
    requires |a| == |b|
  {
    a != [] && (Precedes(a[..|a| - 1], b[..|b| - 1])
                || (a[..|a| - 1] == b[..|b| - 1] && a[|a| - 1] < b[|b| - 1]))
  }

  lemma PrecedesSnoc(a: bytes, x: byte, b: bytes, y: byte)
    requires |a| == |b|
    ensures Precedes(a + [x], b + [y]) <==> Precedes(a, b) || (a == b && x < y)
  {
    assert (a + [x])[..|a|] == a && (b + [y])[..|b|] == b;
  }

  lemma DivOrder(m: nat, n: nat)
    ensures m < n <==> m / 256 < n / 256 || (m / 256 == n / 256 && m % 256 < n % 256)
  {
  }

  /** Byte order is numeric order. */
  lemma {:induction false} OrderKept(m: nat, n: nat, width: nat)
    requires m < Limit(width) && n < Limit(width)
    ensures Precedes(ToBytes(m, width), ToBytes(n, width)) <==> m < n
  {
    if width > 0 {
      hide Precedes, FromBytes;
      var m', n' := m / 256, n / 256;
      var a, b := ToBytes(m', width - 1), ToBytes(n', width - 1);
      OrderKept(m', n', width - 1);
      FromToBytes(m', width - 1);
      FromToBytes(n', width - 1);
      PrecedesSnoc(a, (m % 256) as byte, b, (n % 256) as byte);
      DivOrder(m, n);
    }
  }

  /** Keys of equal length are ordered as the numbers they spell. */
  lemma NumberOrder(a: bytes, b: bytes)
    requires |a| == |b|
    ensures Precedes(a, b) <==> FromBytes(a) < FromBytes(b)
  {
    hide Precedes, FromBytes, ToBytes, Limit;
    ToFromBytes(a);
    ToFromBytes(b);
    OrderKept(FromBytes(a), FromBytes(b), |a|);
  }

  /** `Precedes` is the lexicographic order: the first difference decides. */
  lemma {:induction false} PrecedesFirstDifference(a: bytes, b: bytes)
    requires |a| == |b|
    ensures Precedes(a, b) <==> exists i :: 0 <= i < |a| && a[..i] == b[..i] && a[i] < b[i]
  {
    if a != [] {
      var a', b', n := a[..|a| - 1], b[..|b| - 1], |a| - 1;
      PrecedesFirstDifference(a', b');
      assert forall i | 0 <= i <= n :: a'[..i] == a[..i] && b'[..i] == b[..i];
      if i :| 0 <= i < |a| && a[..i] == b[..i] && a[i] < b[i] {
        if i < n {
          assert a'[..i] == b'[..i] && a'[i] < b'[i];
        }
      }
      if Precedes(a', b') {
        var i :| 0 <= i < n && a'[..i] == b'[..i] && a'[i] < b'[i];
        assert a[..i] == b[..i] && a[i] < b[i];
      } else if Precedes(a, b) {
        assert a[..n] == b[..n] && a[n] < b[n];
      }
    }
  }

  lemma LimitValues()
    ensures Limit(4) == TWO_32 && Limit(8) == TWO_64
    ensures Limit(32) == 0x1_0000000000000000_0000000000000000_0000000000000000_0000000000000000
  {
    assert Limit(4) == TWO_32 by {
      assert Limit(2) == 65536;
    }
    assert Limit(8) == TWO_64 by { LimitSplit(4, 4); }
    assert Limit(16) == TWO_64 * TWO_64 by { LimitSplit(8, 8); }
    LimitSplit(16, 16);
  }

  lemma {:induction false} LimitSplit(a: nat, b: nat)
    ensures Limit(a + b) == Limit(a) * Limit(b)
  {
    if a > 0 {
      LimitSplit(a - 1, b);
      assert Limit(a + b) == 256 * Limit(a - 1 + b);
    }
  }

  // ---- Ids ----------------------------------------------------------------------------------

  function Reversed(bs: bytes): (r: bytes)
    ensures |r| == |bs|
    ensures forall i | 0 <= i < |bs| :: r[i] == bs[|bs| - 1 - i]
  {
    seq(|bs|, i requires 0 <= i < |bs| => bs[|bs| - 1 - i])
  }

  function HashBytes(sh: ScriptHash): (bs: bytes)
    ensures |bs| == 32
  {
    ToBytes(sh as int, 32)
  }

  /** A txid is stored in the reverse of its displayed order. */
  function TxidBytes(txid: Txid): (bs: bytes)
    ensures |bs| == 32
  {
    Reversed(ToBytes(txid as int, 32))
  }

  function HashFrom(bs: bytes): ScriptHash
    requires |bs| == 32
  {
    ToFromBytes(bs);
    LimitValues();
    FromBytes(bs) as ScriptHash
  }

  function TxidFrom(bs: bytes): Txid
    requires |bs| == 32
  {
    ToFromBytes(Reversed(bs));
    LimitValues();
    FromBytes(Reversed(bs)) as Txid
  }

  lemma HashRoundTrip(sh: ScriptHash, bs: bytes)
    requires |bs| == 32
    ensures HashFrom(HashBytes(sh)) == sh && HashBytes(HashFrom(bs)) == bs
  {
    LimitValues();
    FromToBytes(sh as int, 32);
    ToFromBytes(bs);
  }

  lemma TxidRoundTrip(txid: Txid, bs: bytes)
    requires |bs| == 32
    ensures TxidFrom(TxidBytes(txid)) == txid && TxidBytes(TxidFrom(bs)) == bs
  {
    LimitValues();
    FromToBytes(txid as int, 32);
    assert Reversed(TxidBytes(txid)) == ToBytes(txid as int, 32);
    ToFromBytes(Reversed(bs));
    assert Reversed(Reversed(bs)) == bs;
  }

  lemma U32RoundTrip(n: nat, bs: bytes)
    requires n < TWO_32 && |bs| == 4
    ensures FromBytes(ToBytes(n, 4)) == n && ToBytes(FromBytes(bs), 4) == bs && FromBytes(bs) < TWO_32
  {
    LimitValues();
    FromToBytes(n, 4);
    ToFromBytes(bs);
  }

  lemma U64RoundTrip(n: u64, bs: bytes)
    requires |bs| == 8
    ensures FromBytes(ToBytes(n, 8)) == n && ToBytes(FromBytes(bs), 8) == bs && FromBytes(bs) < TWO_64
  {
    LimitValues();
    FromToBytes(n, 8);
    ToFromBytes(bs);
  }

  // ---- Outputs ------------------------------------------------------------------------------

  function EncodeOutput(out: Output): bytes {
    HashBytes(out.scriptHash) + ToBytes(out.value, 8) + ToBytes(out.height, 4)
  }

  function DecodeOutput(raw: bytes): Result<Output> {
    if |raw| != 44 then Err("invalid output encoding length")
    else
      U64RoundTrip(0, raw[32..40]);
      Ok(Output(HashFrom(raw[..32]), FromBytes(raw[32..40]), FromBytes(raw[40..44])))
  }

  lemma OutputRoundTrip(out: Output, raw: bytes)
    requires out.height < TWO_32
    ensures DecodeOutput(EncodeOutput(out)) == Ok(out)
    ensures DecodeOutput(raw).Ok? <==> |raw| == 44
    ensures |raw| == 44 ==> EncodeOutput(DecodeOutput(raw).value) == raw
  {
    var enc := EncodeOutput(out);
    assert enc[..32] == HashBytes(out.scriptHash) && enc[32..40] == ToBytes(out.value, 8)
      && enc[40..44] == ToBytes(out.height, 4);
    HashRoundTrip(out.scriptHash, enc[..32]);
    U64RoundTrip(out.value, enc[32..40]);
    U32RoundTrip(out.height, enc[40..44]);
    if |raw| == 44 {
      HashRoundTrip(0, raw[..32]);
      U64RoundTrip(0, raw[32..40]);
      U32RoundTrip(0, raw[40..44]);
      assert raw == raw[..32] + raw[32..40] + raw[40..44];
    }
  }

  // ---- Outpoints ----------------------------------------------------------------------------

  function EncodeOutPoint(o: OutPoint): bytes {
    TxidBytes(o.txid) + ToBytes(o.vout, 4)
  }

  function DecodeOutPoint(raw: bytes): Result<OutPoint> {
    if |raw| != 36 then Err("invalid outpoint payload length")
    else Ok(OutPoint(TxidFrom(raw[..32]), FromBytes(raw[32..36])))
  }

  lemma OutPointRoundTrip(o: OutPoint, raw: bytes)
    requires o.vout < TWO_32
    ensures DecodeOutPoint(EncodeOutPoint(o)) == Ok(o)
    ensures DecodeOutPoint(raw).Ok? <==> |raw| == 36
    ensures |raw| == 36 ==> EncodeOutPoint(DecodeOutPoint(raw).value) == raw
  {
    var enc := EncodeOutPoint(o);
    assert enc[..32] == TxidBytes(o.txid) && enc[32..36] == ToBytes(o.vout, 4);
    TxidRoundTrip(o.txid, enc[..32]);
    U32RoundTrip(o.vout, enc[32..36]);
    if |raw| == 36 {
      TxidRoundTrip(0, raw[..32]);
      U32RoundTrip(0, raw[32..36]);
      assert raw == raw[..32] + raw[32..36];
    }
  }

  // ---- Unspent keys and prefix scans --------------------------------------------------------

  function EncodeUtxoKey(k: UtxoKey): (bs: bytes)
    ensures |bs| == 68
  {
    HashBytes(k.scriptHash) + EncodeOutPoint(k.outpoint)
  }

  /** The place of a key in the tree. */
  function Place(k: UtxoKey): nat {
    FromBytes(EncodeUtxoKey(k))
  }

  predicate IsFirst(k: UtxoKey, keys: set<UtxoKey>) {
    forall l | l in keys :: Place(k) <= Place(l)
  }

  lemma FirstOfTwo(k: UtxoKey, first: UtxoKey, rest: set<UtxoKey>)
    requires IsFirst(first, rest)
    ensures if Place(first) <= Place(k) then IsFirst(first, rest + {k}) else IsFirst(k, rest + {k})
  {
    hide Place;
  }

  lemma {:induction false} FirstKey(keys: set<UtxoKey>)
    requires keys != {}
    ensures exists k :: k in keys && IsFirst(k, keys)
  {
    hide *;
    var k :| k in keys;
    var rest := keys - {k};
    assert rest + {k} == keys;
    if rest == {} {
      OnlyKey(k);
      assert keys == {k};
    } else {
      FirstKey(rest);
      var first :| first in rest && IsFirst(first, rest);
      FirstOfTwo(k, first, rest);
    }
  }

  lemma OnlyKey(k: UtxoKey)
    ensures IsFirst(k, {k})
  {
  }

  /** A scan by the 32 bytes of a script hash meets exactly that script's keys. */
  lemma UtxoPrefix(k: UtxoKey, sh: ScriptHash)
    ensures HashBytes(sh) <= EncodeUtxoKey(k) <==> k.scriptHash == sh
  {
    var enc := EncodeUtxoKey(k);
    assert enc[..32] == HashBytes(k.scriptHash);
    assert HashBytes(sh) <= enc <==> HashBytes(sh) == enc[..32];
    HashRoundTrip(sh, HashBytes(sh));
    HashRoundTrip(k.scriptHash, HashBytes(sh));
  }

  /** The listing reads the outpoint back out of the key. */
  lemma UtxoKeyRoundTrip(k: UtxoKey)
    requires k.outpoint.vout < TWO_32
    ensures HashFrom(EncodeUtxoKey(k)[..32]) == k.scriptHash
    ensures DecodeOutPoint(EncodeUtxoKey(k)[32..68]) == Ok(k.outpoint)
  {
    assert EncodeUtxoKey(k)[..32] == HashBytes(k.scriptHash);
    assert EncodeUtxoKey(k)[32..68] == EncodeOutPoint(k.outpoint);
    HashRoundTrip(k.scriptHash, HashBytes(0));
    OutPointRoundTrip(k.outpoint, []);
  }

  // ---- History keys -------------------------------------------------------------------------

  function KindByte(kind: HistoryKind): byte {
    match kind case Fund => 0 case Spend => 1
  }

  function EncodeHistoryKey(k: HistoryKey): bytes {
    HashBytes(k.scriptHash) + ToBytes(k.height, 4) + [KindByte(k.kind)] + TxidBytes(k.txid) + ToBytes(k.sequence, 4)
  }

  /** The parsed entry keeps the kind as a raw byte, which nothing reads afterwards. */
  datatype StoredHistory = StoredHistory(scriptHash: ScriptHash, height: nat, kind: byte, txid: Txid, sequence: nat)

  function DecodeHistoryKey(raw: bytes): Result<StoredHistory> {
    if |raw| != 73 then Err("invalid history key length")
    else
      Ok(StoredHistory(HashFrom(raw[..32]), FromBytes(raw[32..36]), raw[36],
                       TxidFrom(raw[37..69]), FromBytes(raw[69..73])))
  }

  lemma HistoryKeyRoundTrip(k: HistoryKey, raw: bytes)
    requires k.height < TWO_32 && k.sequence < TWO_32
    ensures DecodeHistoryKey(EncodeHistoryKey(k))
         == Ok(StoredHistory(k.scriptHash, k.height, KindByte(k.kind), k.txid, k.sequence))
    ensures DecodeHistoryKey(raw).Ok? <==> |raw| == 73
  {
    var enc := EncodeHistoryKey(k);
    assert enc[..32] == HashBytes(k.scriptHash) && enc[32..36] == ToBytes(k.height, 4)
      && enc[37..69] == TxidBytes(k.txid) && enc[69..73] == ToBytes(k.sequence, 4);
    HashRoundTrip(k.scriptHash, enc[..32]);
    U32RoundTrip(k.height, enc[32..36]);
    TxidRoundTrip(k.txid, enc[37..69]);
    U32RoundTrip(k.sequence, enc[69..73]);
  }

  // ---- Journal records ----------------------------------------------------------------------

  function EncodeJournalKey(k: JournalKey): bytes {
    ToBytes(k.height, 4) + ToBytes(k.sequence, 4)
  }

  function EncodePayload(p: Payload): bytes {
    match p
    case TxMined(txid) => [0] + TxidBytes(txid)
    case HistoryAdded(key) => [1] + EncodeHistoryKey(key)
    case OutputAdded(o) => [2] + EncodeOutPoint(o)
    case OutputSpent(o) => [3] + EncodeOutPoint(o)
  }

  /** What a reload makes of a record; a history payload is kept as the raw key. */
  datatype Loaded =
    | LoadedTx(txid: Txid)
    | LoadedHistory(key: bytes)
    | LoadedOutput(outpoint: OutPoint)
    | LoadedSpend(outpoint: OutPoint)

  function DecodeRecord(key: bytes, value: bytes): Result<(JournalKey, Loaded)> {
    if |key| != 8 then Err("invalid journal key length")
    else if value == [] then Err("invalid journal value length: 0")
    else
      var k, payload := JournalKey(FromBytes(key[..4]), FromBytes(key[4..8])), value[1..];
      if value[0] == 0 then
        if |payload| == 32 then Ok((k, LoadedTx(TxidFrom(payload)))) else Err("invalid txid payload length")
      else if value[0] == 1 then Ok((k, LoadedHistory(payload)))
      else if value[0] == 2 || value[0] == 3 then
        match DecodeOutPoint(payload)
        case Ok(o) => Ok((k, if value[0] == 2 then LoadedOutput(o) else LoadedSpend(o)))
        case Err(reason) => Err(reason)
      else Err("invalid journal action kind")
  }

  function AsLoaded(p: Payload): Loaded {
    match p
    case TxMined(txid) => LoadedTx(txid)
    case HistoryAdded(key) => LoadedHistory(EncodeHistoryKey(key))
    case OutputAdded(o) => LoadedOutput(o)
    case OutputSpent(o) => LoadedSpend(o)
  }

  predicate FitsPayload(p: Payload) {
    match p
    case TxMined(_) => true
    case HistoryAdded(key) => key.height < TWO_32 && key.sequence < TWO_32
    case OutputAdded(o) => o.vout < TWO_32
    case OutputSpent(o) => o.vout < TWO_32
  }

  lemma JournalRoundTrip(k: JournalKey, p: Payload)
    requires k.height < TWO_32 && k.sequence < TWO_32 && FitsPayload(p)
    ensures DecodeRecord(EncodeJournalKey(k), EncodePayload(p)) == Ok((k, AsLoaded(p)))
  {
    var key := EncodeJournalKey(k);
    assert key[..4] == ToBytes(k.height, 4) && key[4..8] == ToBytes(k.sequence, 4);
    U32RoundTrip(k.height, key[..4]);
    U32RoundTrip(k.sequence, key[4..8]);
    match p
    case TxMined(txid) => TxidRoundTrip(txid, TxidBytes(txid));
    case HistoryAdded(_) =>
    case OutputAdded(o) => OutPointRoundTrip(o, []);
    case OutputSpent(o) => OutPointRoundTrip(o, []);
  }

  /** Different history keys have different records, so a raw key names one entry. */
  lemma HistoryKeyInjective(k: HistoryKey, l: HistoryKey)
    requires k.height < TWO_32 && k.sequence < TWO_32 && l.height < TWO_32 && l.sequence < TWO_32
    requires EncodeHistoryKey(k) == EncodeHistoryKey(l)
    ensures k == l
  {
    HistoryKeyRoundTrip(k, []);
    HistoryKeyRoundTrip(l, []);
  }

  /** Journal keys iterate by height, then by sequence. */
  lemma JournalOrder(k: JournalKey, l: JournalKey)
    requires k.height < TWO_32 && k.sequence < TWO_32 && l.height < TWO_32 && l.sequence < TWO_32
    ensures Precedes(EncodeJournalKey(k), EncodeJournalKey(l))
       <==> k.height < l.height || (k.height == l.height && k.sequence < l.sequence)
  {
    LimitValues();
    PairOrder(ToBytes(k.height, 4), ToBytes(k.sequence, 4), ToBytes(l.height, 4), ToBytes(l.sequence, 4));
    OrderKept(k.height, l.height, 4);
    OrderKept(k.sequence, l.sequence, 4);
    FromToBytes(k.height, 4);
    FromToBytes(l.height, 4);
  }

  lemma {:induction false} PairOrder(a: bytes, b: bytes, c: bytes, d: bytes)
    requires |a| == |c| && |b| == |d|
    ensures Precedes(a + b, c + d) <==> Precedes(a, c) || (a == c && Precedes(b, d))
  {
    if b == [] {
      assert a + b == a && c + d == c;
    } else {
      var b', d' := b[..|b| - 1], d[..|d| - 1];
      PairOrder(a, b', c, d');
      assert (a + b)[..|a| + |b| - 1] == a + b' && (c + d)[..|c| + |d| - 1] == c + d';
      assert a + b' == c + d' <==> a == c && b' == d' by { ConcatSame(a, b', c, d'); }
    }
  }

  lemma ConcatSame(a: bytes, b: bytes, c: bytes, d: bytes)
    requires |a| == |c|
    ensures a + b == c + d <==> a == c && b == d
  {
    if a + b == c + d {
      assert a == (a + b)[..|a|] && c == (c + d)[..|c|];
      assert b == (a + b)[|a|..] && d == (c + d)[|c|..];
    }
  }

  // ---- The pending list ---------------------------------------------------------------------

  function EncodeTxids(txids: seq<Txid>): (bs: bytes)
    ensures |bs| == 32 * |txids|
  {
    if txids == [] then [] else EncodeTxids(txids[..|txids| - 1]) + TxidBytes(txids[|txids| - 1])
  }

  function DecodeTxids(raw: bytes): Result<seq<Txid>> {
    if |raw| % 32 != 0 then Err("invalid pending txid list length") else Ok(Chunks(raw))
  }

  function Chunks(raw: bytes): seq<Txid>
    requires |raw| % 32 == 0
  {
    if raw == [] then [] else Chunks(raw[..|raw| - 32]) + [TxidFrom(raw[|raw| - 32..])]
  }

  lemma {:induction false} TxidsRoundTrip(txids: seq<Txid>)
    ensures DecodeTxids(EncodeTxids(txids)) == Ok(txids)
  {
    if txids != [] {
      var rest, last := txids[..|txids| - 1], txids[|txids| - 1];
      var enc := EncodeTxids(txids);
      TxidsRoundTrip(rest);
      assert enc[..|enc| - 32] == EncodeTxids(rest) && enc[|enc| - 32..] == TxidBytes(last);
      TxidRoundTrip(last, TxidBytes(last));
      assert txids == rest + [last];
    }
  }

  lemma {:induction false} ChunksRoundTrip(raw: bytes)
    requires |raw| % 32 == 0
    ensures EncodeTxids(Chunks(raw)) == raw
  {
    if raw != [] {
      var rest, last := raw[..|raw| - 32], raw[|raw| - 32..];
      ChunksRoundTrip(rest);
      TxidRoundTrip(0, last);
      var txids := Chunks(raw);
      assert txids[..|txids| - 1] == Chunks(rest);
      assert raw == rest + last;
    }
  }
}
