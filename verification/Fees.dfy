/** The fee-rate histogram of the pending pool. */
module Fees {
  import opened Chain
  import opened Pending
  import opened Queries
  import opened Sums

  datatype Row = Row(rate: nat, vsize: nat)

  /** ceil(weight / 4) */
  function Vsize(tx: Tx): (v: nat)
    ensures 4 * (v - 1) < tx.weight <= 4 * v
  {
    (tx.weight + 3) / 4
  }

  predicate FeeKnown(pool: Pool, outputs: map<OutPoint, Output>, tx: Tx) {
    forall o | o in Spends(tx) :: FindOutput(pool, outputs, o).Some?
  }

  /** Whole satoshis per virtual byte. */
  ghost function Rate(pool: Pool, outputs: map<OutPoint, Output>, tx: Tx): nat {
    Fee(pool, outputs, tx) / Vsize(tx)
  }

  ghost function Eligible(pool: Pool, outputs: map<OutPoint, Output>): set<Txid> {
    set id | id in pool && FeeKnown(pool, outputs, pool[id]) && Rate(pool, outputs, pool[id]) > 0
  }

  ghost function Sizes(pool: Pool): Txid -> int {
    id => if id in pool then Vsize(pool[id]) else 0
  }

  ghost function Rates(pool: Pool, outputs: map<OutPoint, Output>): Txid -> nat {
    id => if id in pool then Rate(pool, outputs, pool[id]) else 0
  }

  ghost function Paid(pool: Pool, outputs: map<OutPoint, Output>): Txid -> int {
    id => if id in pool then Fee(pool, outputs, pool[id]) else 0
  }

  /** The members of `ids` whose rate is `rate`. */
  ghost function AtRate(ids: set<Txid>, rates: Txid -> nat, rate: nat): set<Txid> {
    set id | id in ids && rates(id) == rate
  }

  /** Strictly decreasing rates, one row for each rate that occurs, each the vsize of its members. */
  ghost predicate IsHistogram(ids: set<Txid>, rates: Txid -> nat, sizes: Txid -> int, rows: seq<Row>) {
    && Decreasing(rows)
    && (forall row | row in rows :: AtRate(ids, rates, row.rate) != {} && IsBucket(ids, rates, sizes, row))
    && (forall id | id in ids :: exists row :: row in rows && row.rate == rates(id))
  }

  function RowTotal(rows: seq<Row>, plus: nat): int {
    if rows == [] then 0
    else RowTotal(rows[..|rows| - 1], plus) + (rows[|rows| - 1].rate + plus) * rows[|rows| - 1].vsize
  }

  lemma {:induction false} SumScale(s: set<Txid>, c: int, f: Txid -> int, g: Txid -> int)
    requires forall k | k in s :: f(k) == c * g(k)
    ensures Sum(s, f) == c * Sum(s, g)
  {
    if s != {} {
      var k :| k in s;
      SumRemove(s, k, f);
      SumRemove(s, k, g);
      SumScale(s - {k}, c, f, g);
    }
  }

  ghost function Scaled(rates: Txid -> nat, sizes: Txid -> int, plus: nat): Txid -> int {
    id => (rates(id) + plus) * sizes(id)
  }

  /** The ids whose rate has a row. */
  ghost function Covered(ids: set<Txid>, rates: Txid -> nat, rows: seq<Row>): set<Txid> {
    set id | id in ids && exists row :: row in rows && row.rate == rates(id)
  }

  lemma CoveredSnoc(ids: set<Txid>, rates: Txid -> nat, rows: seq<Row>, row: Row)
    ensures Covered(ids, rates, rows + [row]) == Covered(ids, rates, rows) + AtRate(ids, rates, row.rate)
  {
    assert forall r :: r in rows + [row] <==> r in rows || r == row;
    assert row in rows + [row];
  }

  ghost predicate IsBucket(ids: set<Txid>, rates: Txid -> nat, sizes: Txid -> int, row: Row) {
    row.vsize == Sum(AtRate(ids, rates, row.rate), sizes)
  }

  ghost predicate Decreasing(rows: seq<Row>) {
    forall i, j | 0 <= i < j < |rows| :: rows[i].rate > rows[j].rate
  }

  lemma DecreasingInit(rows: seq<Row>)
    requires Decreasing(rows) && rows != []
    ensures Decreasing(rows[..|rows| - 1])
  {
  }

  lemma CoveredApart(ids: set<Txid>, rates: Txid -> nat, rest: seq<Row>, row: Row)
    requires Decreasing(rest + [row])
    ensures Covered(ids, rates, rest) !! AtRate(ids, rates, row.rate)
  {
    forall r | r in rest ensures r.rate != row.rate {
      var i :| 0 <= i < |rest| && rest[i] == r;
      assert (rest + [row])[i].rate > (rest + [row])[|rest|].rate;
    }
  }

  /** One more row adds its rate times its size. */
  lemma RowAdded(ids: set<Txid>, rates: Txid -> nat, sizes: Txid -> int, rest: seq<Row>, row: Row, plus: nat)
    requires Decreasing(rest + [row]) && IsBucket(ids, rates, sizes, row)
    ensures Sum(Covered(ids, rates, rest + [row]), Scaled(rates, sizes, plus))
         == Sum(Covered(ids, rates, rest), Scaled(rates, sizes, plus)) + (row.rate + plus) * row.vsize
  {
    hide Covered, AtRate, Sum, Scaled, Decreasing;
    var group := AtRate(ids, rates, row.rate);
    CoveredSnoc(ids, rates, rest, row);
    CoveredApart(ids, rates, rest, row);
    SumUnion(Covered(ids, rates, rest), group, Scaled(rates, sizes, plus));
    GroupScaled(ids, rates, sizes, row, plus);
    SumScale(group, row.rate + plus, Scaled(rates, sizes, plus), sizes);
  }

  lemma RowTotalSnoc(rest: seq<Row>, row: Row, plus: nat)
    ensures RowTotal(rest + [row], plus) == RowTotal(rest, plus) + (row.rate + plus) * row.vsize
  {
    assert (rest + [row])[..|rest|] == rest;
  }

  lemma {:induction false} RowsGroup(ids: set<Txid>, rates: Txid -> nat, sizes: Txid -> int, rows: seq<Row>, plus: nat)
    requires Decreasing(rows)
    requires forall row | row in rows :: IsBucket(ids, rates, sizes, row)
    ensures RowTotal(rows, plus) == Sum(Covered(ids, rates, rows), Scaled(rates, sizes, plus))
  {
    if rows == [] {
      assert Covered(ids, rates, rows) == {};
    } else {
      hide *;
      var rest, row := rows[..|rows| - 1], rows[|rows| - 1];
      assert rows == rest + [row];
      assert forall r | r in rest :: r in rows;
      RowTotalSnoc(rest, row, plus);
      DecreasingInit(rows);
      RowsGroup(ids, rates, sizes, rest, plus);
      RowAdded(ids, rates, sizes, rest, row, plus);
    }
  }

  lemma GroupScaled(ids: set<Txid>, rates: Txid -> nat, sizes: Txid -> int, row: Row, plus: nat)
    ensures forall id | id in AtRate(ids, rates, row.rate) ::
      Scaled(rates, sizes, plus)(id) == (row.rate + plus) * sizes(id)
  {
  }

  lemma HistogramCovers(ids: set<Txid>, rates: Txid -> nat, sizes: Txid -> int, rows: seq<Row>)
    requires IsHistogram(ids, rates, sizes, rows)
    ensures Covered(ids, rates, rows) == ids
  {
  }

  lemma RateBounds(pool: Pool, outputs: map<OutPoint, Output>, tx: Tx)
    ensures Rate(pool, outputs, tx) * Vsize(tx) <= Fee(pool, outputs, tx) < (Rate(pool, outputs, tx) + 1) * Vsize(tx)
  {
    hide Fee;
    var fee, v := Fee(pool, outputs, tx), Vsize(tx);
    assert fee == fee / v * v + fee % v;
  }

  /** The rows bracket the fees of the eligible transactions. */
  lemma HistogramBrackets(pool: Pool, outputs: map<OutPoint, Output>, rows: seq<Row>)
    requires IsHistogram(Eligible(pool, outputs), Rates(pool, outputs), Sizes(pool), rows)
    ensures var fees := Sum(Eligible(pool, outputs), Paid(pool, outputs));
      && RowTotal(rows, 0) <= fees
      && (Eligible(pool, outputs) != {} ==> fees < RowTotal(rows, 1))
  {
    hide Fee, Rate, FeeKnown, RowTotal;
    var ids, rates, sizes := Eligible(pool, outputs), Rates(pool, outputs), Sizes(pool);
    HistogramCovers(ids, rates, sizes, rows);
    RowsGroup(ids, rates, sizes, rows, 0);
    RowsGroup(ids, rates, sizes, rows, 1);
    forall id | id in ids
      ensures Scaled(rates, sizes, 0)(id) <= Paid(pool, outputs)(id) < Scaled(rates, sizes, 1)(id)
    {
      RateBounds(pool, outputs, pool[id]);
    }
    SumMonotone(ids, Scaled(rates, sizes, 0), Paid(pool, outputs));
    if ids != {} {
      SumStrict(ids, Paid(pool, outputs), Scaled(rates, sizes, 1));
    }
  }
}
