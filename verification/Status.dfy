/**
 * The status of a script hash: the text that is hashed, that it determines the answers it was
 * made from, and that it does not depend on iteration order.
 */
module Status {
  import opened Chain
  import opened Pending
  import opened Notify
  import opened Sorting
  import opened Queries
  import opened Codecs

  // ---- Text -------------------------------------------------------------------------------

  function HexDigit(n: nat): (c: char)
    requires n < 16
    ensures '0' <= c <= '9' || 'a' <= c <= 'f'
  {
    if n < 10 then '0' + n as char else 'a' + (n - 10) as char
  }

  function Hex(bs: bytes): (s: string)
    ensures |s| == 2 * |bs| && forall c | c in s :: '0' <= c <= '9' || 'a' <= c <= 'f'
  {
    if bs == [] then ""
    else
      var b := bs[|bs| - 1] as nat;
      Hex(bs[..|bs| - 1]) + [HexDigit(b / 16), HexDigit(b % 16)]
  }

  /** The value of a hexadecimal digit as a reader knows it. */
  function DigitValue(c: char): nat {
    if '0' <= c <= '9' then c as nat - 48 else if 'a' <= c <= 'f' then c as nat - 87 else 0
  }

  /** The number that digits spell in a base, most significant first. */
  function ReadNumber(s: string, base: nat): nat {
    if s == "" then 0 else base * ReadNumber(s[..|s| - 1], base) + DigitValue(s[|s| - 1])
  }

  lemma DigitRead(n: nat)
    requires n < 16
    ensures DigitValue(HexDigit(n)) == n
  {
  }

  lemma ReadSnoc(s: string, c: char, base: nat)
    ensures ReadNumber(s + [c], base) == base * ReadNumber(s, base) + DigitValue(c)
  {
    assert (s + [c])[..|s|] == s;
  }

  lemma {:induction false} HexRead(bs: bytes)
    ensures ReadNumber(Hex(bs), 16) == FromBytes(bs)
  {
    if bs != [] {
      hide HexDigit, DigitValue, ReadNumber;
      var rest, b := Hex(bs[..|bs| - 1]), bs[|bs| - 1] as nat;
      HexRead(bs[..|bs| - 1]);
      DigitRead(b / 16);
      DigitRead(b % 16);
      ReadSnoc(rest, HexDigit(b / 16), 16);
      ReadSnoc(rest + [HexDigit(b / 16)], HexDigit(b % 16), 16);
      assert Hex(bs) == rest + [HexDigit(b / 16)] + [HexDigit(b % 16)];
    }
  }

  /** The displayed txid: 64 hexadecimal digits, most significant first. */
  function TxidString(txid: Txid): (s: string)
    ensures |s| == 64 && forall c | c in s :: '0' <= c <= '9' || 'a' <= c <= 'f'
  {
    Hex(ToBytes(txid as int, 32))
  }

  lemma TxidRead(txid: Txid)
    ensures ReadNumber(TxidString(txid), 16) == txid as int
  {
    LimitValues();
    HexRead(ToBytes(txid as int, 32));
    FromToBytes(txid as int, 32);
  }

  lemma TxidStringInjective(a: Txid, b: Txid)
    requires TxidString(a) == TxidString(b)
    ensures a == b
  {
    TxidRead(a);
    TxidRead(b);
  }

  function Decimal(n: nat): (s: string)
    ensures s != "" && (|s| == 1 || s[0] != '0') && forall c | c in s :: '0' <= c <= '9'
    ensures n > 0 ==> s[0] != '0'
  {
    if n < 10 then ['0' + n as char] else Decimal(n / 10) + ['0' + (n % 10) as char]
  }

  lemma {:induction false} DecimalRead(n: nat)
    ensures ReadNumber(Decimal(n), 10) == n
  {
    var s := Decimal(n);
    if n >= 10 {
      assert s[..|s| - 1] == Decimal(n / 10);
      DecimalRead(n / 10);
    } else {
      assert s[..0] == "";
    }
  }

  function HeightString(h: int): (s: string)
    ensures ':' !in s && s != "" && (s[0] == '-' <==> h < 0)
  {
    if h < 0 then "-" + Decimal(-h)
    else
      var s := Decimal(h);
      assert s[0] in s;
      s
  }

  function ReadHeight(s: string): int {
    if s != "" && s[0] == '-' then -(ReadNumber(s[1..], 10) as int) else ReadNumber(s, 10)
  }

  lemma HeightRead(h: int)
    ensures ReadHeight(HeightString(h)) == h
  {
    var s := HeightString(h);
    if h < 0 {
      assert s[1..] == Decimal(-h);
      DecimalRead(-h);
    } else {
      DecimalRead(h);
    }
  }

  lemma HeightStringInjective(g: int, h: int)
    requires HeightString(g) == HeightString(h)
    ensures g == h
  {
    HeightRead(g);
    HeightRead(h);
  }

  // ---- The concatenated entries -----------------------------------------------------------

  type Entry = (Txid, int)

  function EntryText(e: Entry): string {
    TxidString(e.0) + ":" + HeightString(e.1) + ":"
  }

  function Text(es: seq<Entry>): string {
    if es == [] then "" else EntryText(es[0]) + Text(es[1..])
  }

  lemma {:induction false} TextSnoc(es: seq<Entry>, e: Entry)
    ensures Text(es + [e]) == Text(es) + EntryText(e)
  {
    hide EntryText;
    if es == [] {
      assert es + [e] == [e];
    } else {
      TextSnoc(es[1..], e);
      assert (es + [e])[1..] == es[1..] + [e];
      TextCons(es[0], es[1..] + [e]);
      assert es + [e] == [es[0]] + (es[1..] + [e]);
      Associates(EntryText(es[0]), Text(es[1..]), EntryText(e));
    }
  }

  lemma TextCons(e: Entry, es: seq<Entry>)
    ensures Text([e] + es) == EntryText(e) + Text(es)
  {
    assert ([e] + es)[1..] == es;
  }

  lemma Associates(a: string, b: string, c: string)
    ensures a + b + c == a + (b + c)
  {
  }

  lemma SplitAtColon(a: string, b: string, s: string, t: string)
    requires ':' !in a && ':' !in b && a + ":" + s == b + ":" + t
    ensures a == b && s == t
  {
    var x, y := a + ":" + s, b + ":" + t;
    assert x[|a|] == ':' && y[|b|] == ':';
    assert forall i | 0 <= i < |a| :: x[i] == a[i] && x[i] != ':';
    assert forall i | 0 <= i < |b| :: y[i] == b[i] && y[i] != ':';
    assert a == x[..|a|] && b == y[..|b|];
    assert s == x[|a| + 1..] && t == y[|b| + 1..];
  }

  /** The first entry and the rest can be read back. */
  lemma EntryInjective(e: Entry, f: Entry, s: string, t: string)
    requires EntryText(e) + s == EntryText(f) + t
    ensures e == f && s == t
  {
    hide TxidString, HeightString;
    var s', t' := HeightString(e.1) + ":" + s, HeightString(f.1) + ":" + t;
    assert EntryText(e) + s == TxidString(e.0) + ":" + s';
    assert EntryText(f) + t == TxidString(f.0) + ":" + t';
    SplitAtColon(TxidString(e.0), TxidString(f.0), s', t');
    SplitAtColon(HeightString(e.1), HeightString(f.1), s, t);
    TxidStringInjective(e.0, f.0);
    HeightStringInjective(e.1, f.1);
  }

  lemma {:induction false} TextInjective(es: seq<Entry>, fs: seq<Entry>)
    requires Text(es) == Text(fs)
    ensures es == fs
  {
    if es != [] && fs != [] {
      EntryInjective(es[0], fs[0], Text(es[1..]), Text(fs[1..]));
      TextInjective(es[1..], fs[1..]);
      assert es == [es[0]] + es[1..] && fs == [fs[0]] + fs[1..];
    }
  }

  // ---- Reading the text back --------------------------------------------------------------

  function ColonAt(s: string): (i: nat)
    ensures i <= |s| && (i < |s| ==> s[i] == ':') && forall j | 0 <= j < i :: s[j] != ':'
  {
    if s == "" || s[0] == ':' then 0 else 1 + ColonAt(s[1..])
  }

  /** Pairs of a hexadecimal and a signed decimal number, each ended by a colon. */
  function Read(s: string): seq<(nat, int)>
    decreases |s|
  {
    var i := ColonAt(s);
    if i == |s| then []
    else
      var rest := s[i + 1..];
      var j := ColonAt(rest);
      if j == |rest| then []
      else [(ReadNumber(s[..i], 16), ReadHeight(rest[..j]))] + Read(rest[j + 1..])
  }

  function Numbers(es: seq<Entry>): seq<(nat, int)> {
    seq(|es|, i requires 0 <= i < |es| => (es[i].0 as int, es[i].1))
  }

  lemma ColonAfter(a: string, s: string)
    requires ':' !in a
    ensures ColonAt(a + ":" + s) == |a| && (a + ":" + s)[..|a|] == a && (a + ":" + s)[|a| + 1..] == s
  {
    var x := a + ":" + s;
    assert x[|a|] == ':';
    assert forall i | 0 <= i < |a| :: x[i] == a[i] && x[i] != ':';
  }

  lemma ReadEntry(e: Entry, s: string)
    ensures Read(EntryText(e) + s) == [(e.0 as int, e.1)] + Read(s)
  {
    hide TxidString, HeightString, ReadNumber, ReadHeight;
    var a, b := TxidString(e.0), HeightString(e.1);
    assert EntryText(e) + s == a + ":" + (b + ":" + s);
    ColonAfter(a, b + ":" + s);
    ColonAfter(b, s);
    TxidRead(e.0);
    HeightRead(e.1);
  }

  lemma ReadNothing()
    ensures Read("") == []
  {
  }

  /** A reader that knows only digits and colons gets the entries back. */
  lemma {:induction false} ReadText(es: seq<Entry>)
    ensures Read(Text(es)) == Numbers(es)
  {
    hide Read, EntryText;
    if es == [] {
      assert Read("") == [] by { ReadNothing(); }
    } else {
      ReadEntry(es[0], Text(es[1..]));
      ReadText(es[1..]);
      assert Numbers(es) == [(es[0].0 as int, es[0].1)] + Numbers(es[1..]);
    }
  }

  // ---- The status preimage ----------------------------------------------------------------

  function HistoryPairs(h: seq<TxEntry>): seq<Entry> {
    seq(|h|, i requires 0 <= i < |h| => (h[i].txid, h[i].height))
  }

  function MempoolPairs(m: seq<MempoolEntry>): seq<Entry> {
    seq(|m|, i requires 0 <= i < |m| => (m[i].txid, m[i].height))
  }

  /** None for a script hash without activity; pending transactions are encoded twice. */
  function Preimage(h: seq<TxEntry>, m: seq<MempoolEntry>): Option<string> {
    if h == [] && m == [] then None else Some(Text(HistoryPairs(h) + MempoolPairs(m)))
  }

  ghost function Listing<T>(s: set<T>): (xs: seq<T>)
    ensures multiset(xs) == multiset(s) && |xs| == |s|
  {
    if s == {} then []
    else
      var x :| x in s;
      assert multiset(s) == multiset(s - {x}) + multiset{x};
      [x] + Listing(s - {x})
  }

  lemma {:induction false} ImageSize<K, L>(s: set<K>, m: K -> L, image: set<L>)
    requires image == set k | k in s :: m(k)
    requires forall k, l | k in s && l in s && m(k) == m(l) :: k == l
    ensures |image| == |s|
  {
    if s == {} {
      assert image == {};
    } else {
      var k :| k in s;
      ImageSize(s - {k}, m, image - {m(k)});
    }
  }

  /** Every pending transaction appears once in the history and once in the mempool answer. */
  lemma SameSize(pool: Pool, outputs: map<OutPoint, Output>, sh: ScriptHash)
    ensures |PoolHistory(pool, outputs, sh)| == |MempoolEntries(pool, outputs, sh)|
  {
    hide Touching, Fee, MempoolHeight;
    var ids := Touching(pool, outputs, sh);
    var h, m := PoolHistory(pool, outputs, sh), MempoolEntries(pool, outputs, sh);
    forall id | id in ids
      ensures TxEntry(id, 0, 0) in h
      ensures MempoolEntry(id, MempoolHeight(outputs, pool[id]), Fee(pool, outputs, pool[id])) in m
    {
    }
    ImageSize(h, (e: TxEntry) => e.txid, ids);
    ImageSize(m, (e: MempoolEntry) => e.txid, ids);
  }

  /** How many elements have the given txid. */
  function Count<T>(xs: seq<T>, txidOf: T -> Txid, id: Txid): nat {
    if xs == [] then 0
    else Count(xs[..|xs| - 1], txidOf, id) + (if txidOf(xs[|xs| - 1]) == id then 1 else 0)
  }

  lemma {:induction false} CountConcat<T>(xs: seq<T>, ys: seq<T>, txidOf: T -> Txid, id: Txid)
    ensures Count(xs + ys, txidOf, id) == Count(xs, txidOf, id) + Count(ys, txidOf, id)
  {
    if ys == [] {
      assert xs + ys == xs;
    } else {
      CountConcat(xs, ys[..|ys| - 1], txidOf, id);
      assert (xs + ys)[..|xs + ys| - 1] == xs + ys[..|ys| - 1];
    }
  }

  lemma RemovedAt<T>(xs: seq<T>, j: nat)
    requires j < |xs|
    ensures multiset(xs[..j] + xs[j + 1..]) == multiset(xs) - multiset{xs[j]}
    ensures multiset(xs)[xs[j]] > 0
  {
    assert xs == xs[..j] + [xs[j]] + xs[j + 1..];
  }

  lemma CountRemovedAt<T>(xs: seq<T>, j: nat, txidOf: T -> Txid, id: Txid)
    requires j < |xs|
    ensures Count(xs, txidOf, id)
         == Count(xs[..j] + xs[j + 1..], txidOf, id) + (if txidOf(xs[j]) == id then 1 else 0)
  {
    var a, x, b := xs[..j], xs[j], xs[j + 1..];
    assert xs == a + [x] + b && [x][..0] == [];
    CountConcat(a + [x], b, txidOf, id);
    CountConcat(a, [x], txidOf, id);
    CountConcat(a, b, txidOf, id);
  }

  lemma {:induction false} CountPermuted<T>(xs: seq<T>, ys: seq<T>, txidOf: T -> Txid, id: Txid)
    requires multiset(xs) == multiset(ys)
    ensures Count(xs, txidOf, id) == Count(ys, txidOf, id)
  {
    if xs == [] {
      assert |multiset(ys)| == 0;
    } else {
      var i := |xs| - 1;
      assert xs[i] in multiset(ys);
      var j :| 0 <= j < |ys| && ys[j] == xs[i];
      hide Count;
      RemovedAt(xs, i);
      RemovedAt(ys, j);
      CountPermuted(xs[..i] + xs[i + 1..], ys[..j] + ys[j + 1..], txidOf, id);
      CountRemovedAt(xs, i, txidOf, id);
      CountRemovedAt(ys, j, txidOf, id);
    }
  }

  lemma SetWithout<T>(s: set<T>, x: T)
    requires x in s
    ensures multiset(s - {x}) == multiset(s) - multiset{x}
  {
  }

  lemma {:induction false} CountOnce<T(!new)>(xs: seq<T>, s: set<T>, txidOf: T -> Txid, id: Txid)
    requires multiset(xs) == multiset(s)
    requires forall x, y | x in s && y in s && txidOf(x) == txidOf(y) :: x == y
    ensures Count(xs, txidOf, id) == if exists x :: x in s && txidOf(x) == id then 1 else 0
  {
    if xs == [] {
      assert |multiset(s)| == 0;
    } else {
      var i := |xs| - 1;
      var x := xs[i];
      assert x in multiset(s);
      hide Count;
      RemovedAt(xs, i);
      SetWithout(s, x);
      CountOnce(xs[..i] + xs[i + 1..], s - {x}, txidOf, id);
      CountRemovedAt(xs, i, txidOf, id);
      if txidOf(x) == id {
        assert x in s && txidOf(x) == id;
      }
    }
  }

  ghost function EntryTxid(): Entry -> Txid {
    (e: Entry) => e.0
  }

  ghost function HistoryTxid(): TxEntry -> Txid {
    (e: TxEntry) => e.txid
  }

  ghost function MempoolTxid(): MempoolEntry -> Txid {
    (e: MempoolEntry) => e.txid
  }

  lemma {:induction false} HistoryPairsCount(h: seq<TxEntry>, id: Txid)
    ensures Count(HistoryPairs(h), EntryTxid(), id) == Count(h, HistoryTxid(), id)
  {
    if h != [] {
      HistoryPairsCount(h[..|h| - 1], id);
      assert HistoryPairs(h)[..|h| - 1] == HistoryPairs(h[..|h| - 1]);
    }
  }

  lemma {:induction false} MempoolPairsCount(m: seq<MempoolEntry>, id: Txid)
    ensures Count(MempoolPairs(m), EntryTxid(), id) == Count(m, MempoolTxid(), id)
  {
    if m != [] {
      MempoolPairsCount(m[..|m| - 1], id);
      assert MempoolPairs(m)[..|m| - 1] == MempoolPairs(m[..|m| - 1]);
    }
  }

  lemma PoolHistoryCount(confirmed: seq<TxEntry>, pool: Pool, outputs: map<OutPoint, Output>, sh: ScriptHash,
                         h: seq<TxEntry>, id: Txid)
    requires IsHistory(confirmed, pool, outputs, sh, h)
    ensures Count(h, HistoryTxid(), id)
         == Count(confirmed, HistoryTxid(), id) + if id in Touching(pool, outputs, sh) then 1 else 0
  {
    hide Touching, Sorted, Count;
    var entries := PoolHistory(pool, outputs, sh);
    var l := Listing(entries);
    assert multiset(confirmed + l) == multiset(h);
    CountPermuted(h, confirmed + l, HistoryTxid(), id);
    CountConcat(confirmed, l, HistoryTxid(), id);
    CountOnce(l, entries, HistoryTxid(), id);
    if id in Touching(pool, outputs, sh) {
      assert TxEntry(id, 0, 0) in entries && HistoryTxid()(TxEntry(id, 0, 0)) == id;
    }
  }

  lemma MempoolCount(pool: Pool, outputs: map<OutPoint, Output>, sh: ScriptHash, m: seq<MempoolEntry>, id: Txid)
    requires IsMempool(pool, outputs, sh, m)
    ensures Count(m, MempoolTxid(), id) == if id in Touching(pool, outputs, sh) then 1 else 0
  {
    hide Touching, Sorted, Count, Fee, MempoolHeight;
    var entries := MempoolEntries(pool, outputs, sh);
    CountOnce(m, entries, MempoolTxid(), id);
    if id in Touching(pool, outputs, sh) {
      var e := MempoolEntry(id, MempoolHeight(outputs, pool[id]), Fee(pool, outputs, pool[id]));
      assert e in entries && MempoolTxid()(e) == id;
    }
  }

  /** In the text a txid occurs as often as among the confirmed entries, and twice more if it is pending. */
  lemma PendingTwice(confirmed: seq<TxEntry>, pool: Pool, outputs: map<OutPoint, Output>, sh: ScriptHash,
                     h: seq<TxEntry>, m: seq<MempoolEntry>, id: Txid)
    requires IsHistory(confirmed, pool, outputs, sh, h) && IsMempool(pool, outputs, sh, m)
    ensures Count(HistoryPairs(h) + MempoolPairs(m), EntryTxid(), id)
         == Count(HistoryPairs(confirmed), EntryTxid(), id) + if id in Touching(pool, outputs, sh) then 2 else 0
  {
    hide *;
    CountConcat(HistoryPairs(h), MempoolPairs(m), EntryTxid(), id);
    HistoryPairsCount(h, id);
    HistoryPairsCount(confirmed, id);
    MempoolPairsCount(m, id);
    PoolHistoryCount(confirmed, pool, outputs, sh, h, id);
    MempoolCount(pool, outputs, sh, m, id);
  }

  lemma StackSorted(c: seq<TxEntry>, p: seq<TxEntry>)
    requires Sorted(c, EntryKey) && Sorted(p, EntryKey)
    requires (forall e | e in c :: 0 < e.height < U32_MAX) && (forall e | e in p :: e.height == 0)
    ensures Sorted(c + p, EntryKey) && Injective(c + p, EntryKey)
  {
  }

  lemma ConfirmedPart(confirmed: seq<TxEntry>)
    requires HeightsBelow(confirmed, U32_MAX) && forall e | e in confirmed :: e.height > 0
    ensures var c := SortBy(confirmed, EntryKey);
      && Sorted(c, EntryKey) && |c| == |confirmed|
      && forall e | e in c :: 0 < e.height < U32_MAX
  {
    var c := SortBy(confirmed, EntryKey);
    SortBySorted(confirmed, EntryKey);
    hide SortBy, EntryKey, Sorted;
    assert |multiset(confirmed)| == |multiset(c)|;
    forall e | e in c ensures 0 < e.height < U32_MAX {
      assert e in multiset(c);
    }
  }

  lemma PendingPart(entries: set<TxEntry>)
    requires forall e | e in entries :: e.height == 0
    ensures var p := SortBy(Listing(entries), EntryKey);
      && Sorted(p, EntryKey) && |p| == |entries| && multiset(p) == multiset(entries)
      && forall e | e in p :: e.height == 0
  {
    var l := Listing(entries);
    var p := SortBy(l, EntryKey);
    SortBySorted(l, EntryKey);
    hide SortBy, EntryKey, Sorted, Listing;
    assert |multiset(l)| == |multiset(p)|;
    forall e | e in p ensures e.height == 0 {
      assert e in multiset(p);
    }
  }

  /** History is the sorted confirmed entries followed by the pending ones. */
  lemma HistorySplit(confirmed: seq<TxEntry>, pool: Pool, outputs: map<OutPoint, Output>, sh: ScriptHash,
                     h: seq<TxEntry>)
    requires IsHistory(confirmed, pool, outputs, sh, h) && HeightsBelow(confirmed, U32_MAX)
    requires forall e | e in confirmed :: e.height > 0
    ensures var c, p := SortBy(confirmed, EntryKey), SortBy(Listing(PoolHistory(pool, outputs, sh)), EntryKey);
      && h == c + p
      && |c| == |confirmed| && |p| == |PoolHistory(pool, outputs, sh)|
      && (forall e | e in c :: e.height > 0) && (forall e | e in p :: e.height == 0)
  {
    var entries := PoolHistory(pool, outputs, sh);
    PoolHeights(pool, outputs, sh);
    var c, p := SortBy(confirmed, EntryKey), SortBy(Listing(entries), EntryKey);
    ConfirmedPart(confirmed);
    PendingPart(entries);
    hide PoolHistory, Sorted, Injective, SortBy, EntryKey, HeightsBelow;
    StackSorted(c, p);
    SortedUnique(c + p, h, EntryKey);
  }

  /** How many entries from the start are above height 0. */
  function Positive(t: seq<Entry>): nat {
    if t == [] || t[0].1 <= 0 then 0 else 1 + Positive(t[1..])
  }

  lemma {:induction false} PositiveConcat(a: seq<Entry>, b: seq<Entry>)
    requires (forall i | 0 <= i < |a| :: a[i].1 > 0) && (forall i | 0 <= i < |b| :: b[i].1 <= 0)
    ensures Positive(a + b) == |a|
  {
    if a == [] {
      assert a + b == b;
    } else {
      PositiveConcat(a[1..], b);
      assert (a + b)[1..] == a[1..] + b;
    }
  }

  /** Entries above height 0 followed by entries at most 0 come apart in one way only. */
  lemma SignSplit(a: seq<Entry>, b: seq<Entry>, a': seq<Entry>, b': seq<Entry>)
    requires a + b == a' + b'
    requires (forall i | 0 <= i < |a| :: a[i].1 > 0) && (forall i | 0 <= i < |a'| :: a'[i].1 > 0)
    requires (forall i | 0 <= i < |b| :: b[i].1 <= 0) && (forall i | 0 <= i < |b'| :: b'[i].1 <= 0)
    ensures a == a' && b == b'
  {
    var t := a + b;
    PositiveConcat(a, b);
    PositiveConcat(a', b');
    assert a == t[..|a|] && a' == t[..|a|] && b == t[|a|..] && b' == t[|a|..];
  }

  /** Two halves of equal length come apart in one way only. */
  lemma HalfSplit(p: seq<Entry>, m: seq<Entry>, p': seq<Entry>, m': seq<Entry>)
    requires p + m == p' + m' && |p| == |m| && |p'| == |m'|
    ensures m == m'
  {
    assert |p + m| == |p' + m'|;
    assert m == (p + m)[|p|..] && m' == (p' + m')[|p|..];
  }

  lemma PairsConcat(c: seq<TxEntry>, p: seq<TxEntry>)
    ensures HistoryPairs(c + p) == HistoryPairs(c) + HistoryPairs(p)
  {
  }

  /** What a client can observe of a script hash: its confirmed list and its mempool list. */
  ghost predicate Answers(confirmed: seq<TxEntry>, pool: Pool, outputs: map<OutPoint, Output>, sh: ScriptHash,
                          h: seq<TxEntry>, m: seq<MempoolEntry>)
  {
    && IsHistory(confirmed, pool, outputs, sh, h) && IsMempool(pool, outputs, sh, m)
    && HeightsBelow(confirmed, U32_MAX) && (forall e | e in confirmed :: e.height > 0)
  }

  /** The text of a pair of answers: confirmed entries, then each pending transaction twice. */
  lemma AnswerText(confirmed: seq<TxEntry>, pool: Pool, outputs: map<OutPoint, Output>, sh: ScriptHash,
                   h: seq<TxEntry>, m: seq<MempoolEntry>) returns (p: seq<Entry>)
    requires Answers(confirmed, pool, outputs, sh, h, m)
    ensures var c := HistoryPairs(SortBy(confirmed, EntryKey));
      && HistoryPairs(h) + MempoolPairs(m) == c + (p + MempoolPairs(m))
      && |p| == |MempoolPairs(m)|
      && (forall i | 0 <= i < |c| :: c[i].1 > 0)
      && (forall i | 0 <= i < |p + MempoolPairs(m)| :: (p + MempoolPairs(m))[i].1 <= 0)
  {
    hide Touching, Fee, SortBy, Sorted, HeightsBelow, EntryKey, PoolHistory;
    var c, q := SortBy(confirmed, EntryKey), SortBy(Listing(PoolHistory(pool, outputs, sh)), EntryKey);
    HistorySplit(confirmed, pool, outputs, sh, h);
    PairsConcat(c, q);
    p := HistoryPairs(q);
    MempoolSize(pool, outputs, sh, m);
    assert HistoryPairs(c) + p + MempoolPairs(m) == HistoryPairs(c) + (p + MempoolPairs(m));
  }

  lemma MempoolSize(pool: Pool, outputs: map<OutPoint, Output>, sh: ScriptHash, m: seq<MempoolEntry>)
    requires IsMempool(pool, outputs, sh, m)
    ensures |m| == |PoolHistory(pool, outputs, sh)| && forall i | 0 <= i < |m| :: m[i].height <= 0
  {
    hide Touching, Fee, PoolHistory, Sorted;
    SameSize(pool, outputs, sh);
    assert |multiset(m)| == |m|;
    forall i | 0 <= i < |m| ensures m[i].height <= 0 {
      assert m[i] in multiset(m);
    }
  }

  /** The hashed text determines the confirmed list and the pending (txid, height) list. */
  lemma PreimageInjective(confirmed: seq<TxEntry>, pool: Pool, outputs: map<OutPoint, Output>,
                          confirmed': seq<TxEntry>, pool': Pool, outputs': map<OutPoint, Output>, sh: ScriptHash,
                          h: seq<TxEntry>, m: seq<MempoolEntry>, h': seq<TxEntry>, m': seq<MempoolEntry>)
    requires Answers(confirmed, pool, outputs, sh, h, m) && Answers(confirmed', pool', outputs', sh, h', m')
    requires Preimage(h, m) == Preimage(h', m')
    ensures HistoryPairs(SortBy(confirmed, EntryKey)) == HistoryPairs(SortBy(confirmed', EntryKey))
    ensures MempoolPairs(m) == MempoolPairs(m')
  {
    hide Answers, SortBy, EntryKey, Text;
    TextInjective(HistoryPairs(h) + MempoolPairs(m), HistoryPairs(h') + MempoolPairs(m'));
    var p := AnswerText(confirmed, pool, outputs, sh, h, m);
    var p' := AnswerText(confirmed', pool', outputs', sh, h', m');
    var c, c' := HistoryPairs(SortBy(confirmed, EntryKey)), HistoryPairs(SortBy(confirmed', EntryKey));
    SignSplit(c, p + MempoolPairs(m), c', p' + MempoolPairs(m'));
    HalfSplit(p, MempoolPairs(m), p', MempoolPairs(m'));
  }

  /** Iteration and insertion order never show in the status. */
  lemma PreimageDetermined(confirmed: seq<TxEntry>, confirmed': seq<TxEntry>, pool: Pool,
                           outputs: map<OutPoint, Output>, sh: ScriptHash,
                           h: seq<TxEntry>, m: seq<MempoolEntry>, h': seq<TxEntry>, m': seq<MempoolEntry>)
    requires multiset(confirmed) == multiset(confirmed') && HeightsBelow(confirmed, U32_MAX)
    requires IsHistory(confirmed, pool, outputs, sh, h) && IsMempool(pool, outputs, sh, m)
    requires IsHistory(confirmed', pool, outputs, sh, h') && IsMempool(pool, outputs, sh, m')
    ensures h == h' && m == m' && Preimage(h, m) == Preimage(h', m')
  {
    hide *;
    HistoryDetermined(confirmed, confirmed', pool, pool, outputs, outputs, sh, h, h');
    MempoolDetermined(pool, outputs, sh, m, m');
  }
}
