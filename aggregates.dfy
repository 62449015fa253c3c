/**
 * The per-chunk totals the analysers compute and the eight-entry summary they
 * build from them (core/pool_processor.py, core/analyzer.py).
 *
 * Column sums follow pandas: a missing value is skipped.  `trip_distance > 10`
 * is false on a missing value.  Amounts are exact reals; `round(x, 2)` is not
 * modelled.
 */
module Aggregates {
  import opened Frames

  /** The numeric columns the analysers sum. */
  predicate Summed(c: Column)
  {
    c == TripDistance || c == TipAmount || c == TotalAmount || c == PassengerCount || c == FareAmount
  }

  /** The value of a summed column in a row, `None` when it is missing. */
  function Value(r: Row, c: Column): Option<real>
    requires Summed(c)
  {
    match c
    case TripDistance => r.distance
    case TipAmount => r.tip
    case TotalAmount => r.total
    case PassengerCount => r.passengers
    case FareAmount => r.fare
  }

  /** `df[c].sum()`: the sum of the column's values, missing values skipped. */
  function Sum(recs: seq<Record>, c: Column): real
    requires Summed(c)
  {
    if recs == [] then 0.0
    else (match Value(recs[0].row, c) case Some(v) => v case None => 0.0) + Sum(recs[1..], c)
  }

  /** A trip longer than ten miles; a missing distance compares false. */
  predicate IsLong(r: Row)
  {
    r.distance.Some? && r.distance.value > 10.0
  }

  /** `(df["trip_distance"] > 10).sum()`: how many records are long trips. */
  function CountLong(recs: seq<Record>): (n: int)
    ensures 0 <= n <= |recs|
  {
    if recs == [] then 0
    else (if IsLong(recs[0].row) then 1 else 0) + CountLong(recs[1..])
  }

  /** The count is zero exactly when no trip is long, and the number of records exactly when all are. */
  lemma {:induction false} CountLongExtremes(recs: seq<Record>)
    ensures CountLong(recs) == 0 <==> forall i :: 0 <= i < |recs| ==> !IsLong(recs[i].row)
    ensures CountLong(recs) == |recs| <==> forall i :: 0 <= i < |recs| ==> IsLong(recs[i].row)
    decreases |recs|
  {
    if recs != [] {
      var rest := recs[1..];
      CountLongExtremes(rest);
      assert forall i :: 0 < i < |recs| ==> recs[i] == rest[i - 1];
      if forall i :: 0 <= i < |rest| ==> !IsLong(rest[i].row) {
        assert forall i :: 0 < i < |recs| ==> !IsLong(recs[i].row);
      }
      if forall i :: 0 <= i < |rest| ==> IsLong(rest[i].row) {
        assert forall i :: 0 < i < |recs| ==> IsLong(recs[i].row);
      }
    }
  }

  /** The six fields of an analysis result: `rows`, `distance`, `tip`, `amount`, `passengers`, `long_trips`. */
  datatype Totals = Totals(rows: int, distance: real, tip: real, amount: real, passengers: real, longTrips: int)

  /** The all-zero result, and the starting value of `total`. */
  const ZeroTotals: Totals := Totals(0, 0.0, 0.0, 0.0, 0.0, 0)

  /** Field-wise sum: one `for key in total: total[key] += result[key]` pass. */
  function Add(a: Totals, b: Totals): Totals
  {
    Totals(a.rows + b.rows, a.distance + b.distance, a.tip + b.tip,
           a.amount + b.amount, a.passengers + b.passengers, a.longTrips + b.longTrips)
  }

  /** The result of analysing records that have every summed column. */
  function RowTotals(recs: seq<Record>): Totals
  {
    Totals(|recs|, Sum(recs, TripDistance), Sum(recs, TipAmount), Sum(recs, TotalAmount),
           Sum(recs, PassengerCount), CountLong(recs))
  }

  /** The running total after folding the results in order, starting from zero. */
  function TotalOf(results: seq<Totals>): Totals
  {
    if results == [] then ZeroTotals
    else Add(TotalOf(results[..|results| - 1]), results[|results| - 1])
  }

  /** The analysis results of a sequence of chunks whose columns are all present. */
  function ChunkTotals(frames: seq<Frame>): (ts: seq<Totals>)
    ensures |ts| == |frames|
    ensures forall k :: 0 <= k < |frames| ==> ts[k] == RowTotals(frames[k].records)
  {
    seq(|frames|, k requires 0 <= k < |frames| => RowTotals(frames[k].records))
  }

  lemma {:induction false} SumConcat(a: seq<Record>, b: seq<Record>, c: Column)
    requires Summed(c)
    ensures Sum(a + b, c) == Sum(a, c) + Sum(b, c)
    decreases |a|
  {
    if a != [] {
      assert (a + b)[0] == a[0];
      assert (a + b)[1..] == a[1..] + b;
      SumConcat(a[1..], b, c);
    } else {
      assert a + b == b;
    }
  }

  lemma {:induction false} CountLongConcat(a: seq<Record>, b: seq<Record>)
    ensures CountLong(a + b) == CountLong(a) + CountLong(b)
    decreases |a|
  {
    if a != [] {
      assert (a + b)[0] == a[0];
      assert (a + b)[1..] == a[1..] + b;
      CountLongConcat(a[1..], b);
    } else {
      assert a + b == b;
    }
  }

  /** Analysing two pieces and adding the results is analysing them together. */
  lemma RowTotalsConcat(a: seq<Record>, b: seq<Record>)
    ensures RowTotals(a + b) == Add(RowTotals(a), RowTotals(b))
  {
    SumConcat(a, b, TripDistance);
    SumConcat(a, b, TipAmount);
    SumConcat(a, b, TotalAmount);
    SumConcat(a, b, PassengerCount);
    CountLongConcat(a, b);
  }

  /** The total of two result lists one after the other is the sum of their totals. */
  lemma {:induction false} TotalOfConcat(a: seq<Totals>, b: seq<Totals>)
    ensures TotalOf(a + b) == Add(TotalOf(a), TotalOf(b))
    decreases |b|
  {
    if b == [] {
      assert a + b == a;
    } else {
      var n := |b| - 1;
      assert (a + b)[..|a + b| - 1] == a + b[..n];
      assert (a + b)[|a + b| - 1] == b[n];
      TotalOfConcat(a, b[..n]);
    }
  }

  /** Taking one result out of the list and adding it last gives the same total. */
  lemma TotalOfRemove(b: seq<Totals>, j: nat)
    requires j < |b|
    ensures TotalOf(b) == Add(TotalOf(b[..j] + b[j + 1..]), b[j])
  {
    var p, x, q := b[..j], b[j], b[j + 1..];
    assert b == p + ([x] + q);
    assert [x][..0] == [];
    TotalOfConcat(p, [x] + q);
    TotalOfConcat([x], q);
    TotalOfConcat(p, q);
    var tp, tq := TotalOf(p), TotalOf(q);
    calc {
      TotalOf(b);
      Add(tp, Add(Add(ZeroTotals, x), tq));
      { AddSwap(tp, x, tq); }
      Add(Add(tp, tq), x);
    }
  }

  lemma AddSwap(a: Totals, x: Totals, c: Totals)
    ensures Add(a, Add(Add(ZeroTotals, x), c)) == Add(Add(a, c), x)
  {
  }

  /** The order of the results does not change their total. */
  lemma {:induction false} TotalOfPermutation(a: seq<Totals>, b: seq<Totals>)
    requires multiset(a) == multiset(b)
    ensures TotalOf(a) == TotalOf(b)
    decreases |a|
  {
    if a == [] {
      assert |b| == |multiset(b)| == 0;
    } else {
      var n := |a| - 1;
      var x := a[n];
      assert a == a[..n] + [x];
      assert x in multiset(b);
      var j :| 0 <= j < |b| && b[j] == x;
      assert b == b[..j] + [x] + b[j + 1..];
      var rest := b[..j] + b[j + 1..];
      assert multiset(a[..n]) == multiset(a) - multiset{x};
      assert multiset(rest) == multiset(b) - multiset{x};
      TotalOfPermutation(a[..n], rest);
      TotalOfRemove(b, j);
    }
  }

  /** Adding up the results of consecutive chunks gives the result of all their records. */
  lemma {:induction false} TotalOfChunks(frames: seq<Frame>)
    ensures TotalOf(ChunkTotals(frames)) == RowTotals(Flatten(frames))
    decreases |frames|
  {
    if frames == [] {
    } else {
      var n := |frames| - 1;
      assert frames == frames[..n] + [frames[n]];
      assert ChunkTotals(frames)[..n] == ChunkTotals(frames[..n]);
      TotalOfChunks(frames[..n]);
      FlattenConcat(frames[..n], [frames[n]]);
      assert Flatten([frames[n]]) == frames[n].records;
      RowTotalsConcat(Flatten(frames[..n]), frames[n].records);
    }
  }

  /** Zero results, however many, add up to zero. */
  lemma {:induction false} TotalOfZeros(results: seq<Totals>)
    requires forall t :: t in results ==> t == ZeroTotals
    ensures TotalOf(results) == ZeroTotals
    decreases |results|
  {
    if results != [] {
      var n := |results| - 1;
      var front := results[..n];
      forall t | t in front
        ensures t == ZeroTotals
      {
        assert t in results;
      }
      TotalOfZeros(front);
      assert results[n] in results;
    }
  }

  /** The running row count never goes down as results come in. */
  lemma {:induction false} TotalOfRowsGrow(results: seq<Totals>, i: nat, j: nat)
    requires i <= j <= |results|
    requires forall k :: 0 <= k < |results| ==> results[k].rows >= 0
    ensures TotalOf(results[..i]).rows <= TotalOf(results[..j]).rows
    decreases j - i
  {
    if i < j {
      TotalOfRowsGrow(results, i, j - 1);
      assert results[..j][..j - 1] == results[..j - 1];
    }
  }

  /** A value of the summary: an int, a float, or NaN. */
  datatype Metric = Count(n: int) | Amount(x: real) | NotANumber

  /** The summary dictionary, as its entries in insertion order. */
  type Summary = seq<(string, Metric)>

  /** The eight keys of every summary, in order. */
  const SummaryKeys: seq<string> := [
    "Liczba rekordów",
    "Średnia długość trasy (mile)",
    "Średni napiwek ($)",
    "Łączna kwota opłat ($)",
    "Średnia opłata za kurs ($)",
    "Liczba pasażerów (łącznie)",
    "Średnia liczba pasażerów na kurs",
    "Liczba długich kursów (>10 mil)"
  ]

  function Keys(s: Summary): (keys: seq<string>)
    ensures |keys| == |s|
    ensures forall i :: 0 <= i < |s| ==> keys[i] == s[i].0
  {
    seq(|s|, i requires 0 <= i < |s| => s[i].0)
  }

  /** `int(x)`: truncation toward zero. */
  function Trunc(x: real): (n: int)
    ensures 0.0 <= x ==> n as real <= x < n as real + 1.0
    ensures x < 0.0 ==> n as real - 1.0 < x <= n as real
  {
    if x >= 0.0 then x.Floor else -((-x).Floor)
  }

  /** A summary with the eight keys whose values are those given, in order. */
  function Entries(values: seq<Metric>): (s: Summary)
    requires |values| == |SummaryKeys|
    ensures Keys(s) == SummaryKeys
    ensures forall i :: 0 <= i < |s| ==> s[i].1 == values[i]
  {
    seq(|SummaryKeys|, i requires 0 <= i < |SummaryKeys| => (SummaryKeys[i], values[i]))
  }

  /** `round(sum / rows, 2) if rows else 0`: the per-trip mean, or the integer 0 with no rows. */
  function GuardedMean(sum: real, rows: int): Metric
  {
    if rows != 0 then Amount(sum / rows as real) else Count(0)
  }

  /** The summary `aggregate_results` builds from the total. */
  function PoolSummary(t: Totals): Summary
  {
    Entries([Count(t.rows),
             GuardedMean(t.distance, t.rows),
             GuardedMean(t.tip, t.rows),
             Amount(t.amount),
             GuardedMean(t.amount, t.rows),
             Count(Trunc(t.passengers)),
             GuardedMean(t.passengers, t.rows),
             Count(t.longTrips)])
  }

  /** `m` is a mean of `sum` over `rows`: multiplied back by `rows` it gives `sum`. */
  predicate IsMean(m: Metric, sum: real, rows: int)
  {
    m.Amount? && m.x * rows as real == sum
  }

  /**
   * The summary has the eight keys in order, the row count, the amount total,
   * the passenger total cut to an int and the long-trip count; its means are
   * the integer 0 without rows, and otherwise multiply back to the totals.
   */
  lemma PoolSummaryShape(t: Totals)
    ensures var s := PoolSummary(t);
      && Keys(s) == SummaryKeys
      && s[0].1 == Count(t.rows) && s[3].1 == Amount(t.amount)
      && s[5].1 == Count(Trunc(t.passengers)) && s[7].1 == Count(t.longTrips)
      && (t.rows == 0 ==> s[1].1 == s[2].1 == s[4].1 == s[6].1 == Count(0))
      && (t.rows != 0 ==>
            && IsMean(s[1].1, t.distance, t.rows) && IsMean(s[2].1, t.tip, t.rows)
            && IsMean(s[4].1, t.amount, t.rows) && IsMean(s[6].1, t.passengers, t.rows))
  {
    if t.rows != 0 {
      var r := t.rows as real;
      MeanTimesRows(t.distance, r);
      MeanTimesRows(t.tip, r);
      MeanTimesRows(t.amount, r);
      MeanTimesRows(t.passengers, r);
    }
  }

  lemma MeanTimesRows(sum: real, rows: real)
    requires rows != 0.0
    ensures (sum / rows) * rows == sum
  {
  }
}
