/**
 * The nine validators of validation/validators.py.  Seven of them keep the
 * rows that satisfy one rule (a boolean mask or `dropna`), one removes
 * repeated rows (`drop_duplicates`), and one checks that the required columns
 * exist.  `Chain` applies a list of validators one after the other, as the
 * `for validator in validators: df = validator.validate(df)` loops do.
 */
module Validators {
  import opened Sequences
  import opened Frames

  /** 24 hours, the bound on a trip's duration. */
  const DayInSeconds: int := 86400

  /** The row rules; each one is a single filter over the frame. */
  datatype RowRule =
    | NoMissingValues         // NoMissingValuesValidator: df.dropna()
    | PositivePassengerCount  // passenger_count > 0
    | PositiveDistance        // trip_distance > 0
    | PositiveFare            // fare_amount > 0 and total_amount > 0
    | NonNegativeTip          // PositiveTipValidator: tip_amount >= 0
    | ValidDateRange          // dropoff > pickup
    | TripDuration            // 0 < dropoff - pickup < 86400 s: a trip of exactly 24 h is dropped

  datatype Validator =
    | ColumnExistence(required: seq<Column>)
    | RowFilter(rule: RowRule)
    | DropDuplicates

  /** The columns a rule's mask reads, in the order pandas looks them up. */
  function Accessed(rule: RowRule): seq<Column>
  {
    match rule
    case NoMissingValues => []
    case PositivePassengerCount => [PassengerCount]
    case PositiveDistance => [TripDistance]
    case PositiveFare => [FareAmount, TotalAmount]
    case NonNegativeTip => [TipAmount]
    case ValidDateRange => [DropoffTime, PickupTime]
    case TripDuration => [DropoffTime, PickupTime]
  }

  /** A comparison with NaN is false, so a missing value is never positive. */
  predicate Positive(v: Option<real>)
  {
    v.Some? && v.value > 0.0
  }

  /** Whether the mask of `rule` keeps row `r` of a frame with columns `cols`. */
  predicate Keeps(rule: RowRule, cols: set<Column>, r: Row)
  {
    match rule
    case NoMissingValues => !HasMissing(cols, r)
    case PositivePassengerCount => Positive(r.passengers)
    case PositiveDistance => Positive(r.distance)
    case PositiveFare => Positive(r.fare) && Positive(r.total)
    case NonNegativeTip => r.tip.Some? && r.tip.value >= 0.0
    case ValidDateRange => r.dropoff.Some? && r.pickup.Some? && r.dropoff.value > r.pickup.value
    case TripDuration =>
      r.dropoff.Some? && r.pickup.Some? && 0 < r.dropoff.value - r.pickup.value < DayInSeconds
  }

  /** Row `r` satisfies every rule of `rules`. */
  predicate PassesAll(rules: seq<RowRule>, cols: set<Column>, r: Row)
  {
    forall k :: 0 <= k < |rules| ==> Keeps(rules[k], cols, r)
  }

  lemma {:induction false} PassesAllIff(rules: seq<RowRule>, cols: set<Column>, r: Row)
    ensures PassesAll(rules, cols, r) <==> forall rule :: rule in rules ==> Keeps(rule, cols, r)
    decreases |rules|
  {
    if rules != [] {
      PassesAllIff(rules[1..], cols, r);
      assert forall rule :: rule in rules <==> rule == rules[0] || rule in rules[1..];
    }
  }

  /** The records whose rows satisfy every rule, in their original order, labels kept. */
  function Select(rules: seq<RowRule>, cols: set<Column>, recs: seq<Record>): (r: seq<Record>)
    ensures |r| <= |recs|
    ensures forall x :: x in r <==> x in recs && PassesAll(rules, cols, x.row)
    decreases |recs|
  {
    if recs == [] then []
    else
      var rest := Select(rules, cols, recs[1..]);
      assert forall x :: x in recs <==> x == recs[0] || x in recs[1..];
      if PassesAll(rules, cols, recs[0].row) then [recs[0]] + rest else rest
  }

  lemma {:induction false} SelectConcat(rules: seq<RowRule>, cols: set<Column>, a: seq<Record>, b: seq<Record>)
    ensures Select(rules, cols, a + b) == Select(rules, cols, a) + Select(rules, cols, b)
    decreases |a|
  {
    if a == [] {
      assert a + b == b;
    } else {
      assert (a + b)[1..] == a[1..] + b;
      SelectConcat(rules, cols, a[1..], b);
    }
  }

  lemma {:induction false} SelectSubsequence(rules: seq<RowRule>, cols: set<Column>, recs: seq<Record>)
    ensures Subsequence(Select(rules, cols, recs), recs)
    decreases |recs|
  {
    if recs != [] {
      SelectSubsequence(rules, cols, recs[1..]);
      var rest := Select(rules, cols, recs[1..]);
      if PassesAll(rules, cols, recs[0].row) {
        SubsequenceConsBoth(recs[0], rest, recs[1..]);
      } else {
        SubsequenceCons(recs[0], rest, recs[1..]);
      }
      assert recs == [recs[0]] + recs[1..];
    }
  }

  /** A filter that every record passes keeps the whole sequence. */
  lemma {:induction false} SelectAllPass(rules: seq<RowRule>, cols: set<Column>, recs: seq<Record>)
    requires forall i :: 0 <= i < |recs| ==> PassesAll(rules, cols, recs[i].row)
    ensures Select(rules, cols, recs) == recs
    decreases |recs|
  {
    if recs != [] {
      SelectAllPass(rules, cols, recs[1..]);
      assert recs == [recs[0]] + recs[1..];
    }
  }

  lemma PassesAllConcat(a: seq<RowRule>, b: seq<RowRule>, cols: set<Column>, r: Row)
    ensures PassesAll(a + b, cols, r) <==> PassesAll(a, cols, r) && PassesAll(b, cols, r)
  {
    if PassesAll(a + b, cols, r) {
      forall k | 0 <= k < |a| ensures Keeps(a[k], cols, r) {
        assert (a + b)[k] == a[k];
      }
      forall k | 0 <= k < |b| ensures Keeps(b[k], cols, r) {
        assert (a + b)[|a| + k] == b[k];
      }
    }
  }

  /** Filtering by `b` and then by `a` is filtering once by both. */
  lemma {:induction false} SelectTwice(a: seq<RowRule>, b: seq<RowRule>, cols: set<Column>, recs: seq<Record>)
    ensures Select(a, cols, Select(b, cols, recs)) == Select(b + a, cols, recs)
    decreases |recs|
  {
    if recs != [] {
      SelectTwice(a, b, cols, recs[1..]);
      PassesAllConcat(b, a, cols, recs[0].row);
    }
  }

  /** Two rule lists with the same rules select the same records. */
  lemma {:induction false} SelectSameRules(a: seq<RowRule>, b: seq<RowRule>, cols: set<Column>, recs: seq<Record>)
    requires forall rule :: rule in a <==> rule in b
    ensures Select(a, cols, recs) == Select(b, cols, recs)
    decreases |recs|
  {
    if recs != [] {
      SelectSameRules(a, b, cols, recs[1..]);
      PassesAllIff(a, cols, recs[0].row);
      PassesAllIff(b, cols, recs[0].row);
    }
  }

  /** The order of two filters does not change what they keep. */
  lemma SelectCommutes(a: seq<RowRule>, b: seq<RowRule>, cols: set<Column>, recs: seq<Record>)
    ensures Select(a, cols, Select(b, cols, recs)) == Select(b, cols, Select(a, cols, recs))
  {
    SelectTwice(a, b, cols, recs);
    SelectTwice(b, a, cols, recs);
    SelectSameRules(b + a, a + b, cols, recs);
  }

  /** A duration strictly between 0 and 24 hours puts the dropoff after the pickup. */
  lemma DurationImpliesDateRange(cols: set<Column>, r: Row)
    ensures Keeps(TripDuration, cols, r) ==> Keeps(ValidDateRange, cols, r)
    ensures r.dropoff.Some? && r.pickup.Some? && r.dropoff.value - r.pickup.value == DayInSeconds
      ==> Keeps(ValidDateRange, cols, r) && !Keeps(TripDuration, cols, r)
  {
  }

  /**
   * The duration filter's output is a subset of the date-range filter's:
   * filtering it again by date range changes nothing.
   */
  lemma DurationWithinDateRange(cols: set<Column>, recs: seq<Record>)
    ensures forall x :: x in Select([TripDuration], cols, recs) ==> x in Select([ValidDateRange], cols, recs)
    ensures Select([ValidDateRange], cols, Select([TripDuration], cols, recs)) == Select([TripDuration], cols, recs)
  {
    var kept := Select([TripDuration], cols, recs);
    forall i | 0 <= i < |kept| ensures PassesAll([ValidDateRange], cols, kept[i].row) {
      assert kept[i] in kept;
      assert Keeps([TripDuration][0], cols, kept[i].row);
      DurationImpliesDateRange(cols, kept[i].row);
    }
    forall x | x in kept ensures x in Select([ValidDateRange], cols, recs) {
      assert Keeps([TripDuration][0], cols, x.row);
      DurationImpliesDateRange(cols, x.row);
      assert PassesAll([ValidDateRange], cols, x.row);
    }
    SelectAllPass([ValidDateRange], cols, kept);
  }

  /** Keeps the first record of every row not in `seen`, dropping later copies. */
  function DedupFrom(recs: seq<Record>, seen: set<Row>): (r: seq<Record>)
    ensures |r| <= |recs|
    ensures forall x :: x in r ==> x in recs && x.row !in seen
    decreases |recs|
  {
    if recs == [] then []
    else if recs[0].row in seen then DedupFrom(recs[1..], seen)
    else [recs[0]] + DedupFrom(recs[1..], seen + {recs[0].row})
  }

  /** `drop_duplicates()`: the first record of every distinct row, in order. */
  function Dedup(recs: seq<Record>): seq<Record>
  {
    DedupFrom(recs, {})
  }

  lemma {:induction false} DedupSubsequence(recs: seq<Record>, seen: set<Row>)
    ensures Subsequence(DedupFrom(recs, seen), recs)
    decreases |recs|
  {
    if recs != [] {
      var x := recs[0];
      assert recs == [x] + recs[1..];
      if x.row in seen {
        DedupSubsequence(recs[1..], seen);
        SubsequenceCons(x, DedupFrom(recs[1..], seen), recs[1..]);
      } else {
        DedupSubsequence(recs[1..], seen + {x.row});
        SubsequenceConsBoth(x, DedupFrom(recs[1..], seen + {x.row}), recs[1..]);
      }
    }
  }

  /** No two kept records have equal rows. */
  lemma {:induction false} DedupDistinct(recs: seq<Record>, seen: set<Row>)
    ensures Distinct(Rows(DedupFrom(recs, seen)))
    decreases |recs|
  {
    if recs != [] {
      var x := recs[0];
      if x.row in seen {
        DedupDistinct(recs[1..], seen);
      } else {
        var rest := DedupFrom(recs[1..], seen + {x.row});
        DedupDistinct(recs[1..], seen + {x.row});
        var rows := Rows([x] + rest);
        forall i, j | 0 <= i < j < |rows| ensures rows[i] != rows[j] {
          if i == 0 {
            assert rest[j - 1] in rest;
          } else {
            assert rows[i] == Rows(rest)[i - 1] && rows[j] == Rows(rest)[j - 1];
          }
        }
      }
    }
  }

  /** Every row of the input not in `seen` keeps one copy. */
  lemma {:induction false} DedupKeepsEveryRow(recs: seq<Record>, seen: set<Row>, x: Record)
    requires x in recs && x.row !in seen
    ensures exists y :: y in DedupFrom(recs, seen) && y.row == x.row
    decreases |recs|
  {
    var y := recs[0];
    if y.row == x.row {
      assert y in DedupFrom(recs, seen);
    } else {
      assert x in recs[1..];
      if y.row in seen {
        DedupKeepsEveryRow(recs[1..], seen, x);
      } else {
        DedupKeepsEveryRow(recs[1..], seen + {y.row}, x);
        var z :| z in DedupFrom(recs[1..], seen + {y.row}) && z.row == x.row;
        assert z in DedupFrom(recs, seen);
      }
    }
  }

  /** A row that never occurs in `recs` makes no difference in `seen`. */
  lemma {:induction false} DedupIgnoresAbsent(recs: seq<Record>, seen: set<Row>, y: Row)
    requires forall i :: 0 <= i < |recs| ==> recs[i].row != y
    ensures DedupFrom(recs, seen + {y}) == DedupFrom(recs, seen)
    decreases |recs|
  {
    if recs != [] {
      var x := recs[0];
      if x.row in seen {
        DedupIgnoresAbsent(recs[1..], seen, y);
      } else {
        assert seen + {y} + {x.row} == seen + {x.row} + {y};
        DedupIgnoresAbsent(recs[1..], seen + {x.row}, y);
      }
    }
  }

  /** Appending a record keeps it only when its row is new: the first copy wins. */
  lemma {:induction false} DedupSnoc(recs: seq<Record>, seen: set<Row>, x: Record)
    ensures DedupFrom(recs + [x], seen)
      == DedupFrom(recs, seen) + (if x.row in seen || x.row in Rows(recs) then [] else [x])
    decreases |recs|
  {
    if recs == [] {
      assert recs + [x] == [x];
    } else {
      var y := recs[0];
      var tail := recs[1..];
      assert (recs + [x])[0] == y;
      assert (recs + [x])[1..] == tail + [x];
      assert Rows(recs) == [y.row] + Rows(tail);
      assert x.row in Rows(recs) <==> x.row == y.row || x.row in Rows(tail);
      if y.row in seen {
        DedupSnoc(tail, seen, x);
        assert DedupFrom(recs + [x], seen) == DedupFrom(tail + [x], seen);
        assert DedupFrom(recs, seen) == DedupFrom(tail, seen);
      } else {
        DedupSnoc(tail, seen + {y.row}, x);
        assert DedupFrom(recs + [x], seen) == [y] + DedupFrom(tail + [x], seen + {y.row});
        assert DedupFrom(recs, seen) == [y] + DedupFrom(tail, seen + {y.row});
      }
    }
  }

  /** Records with distinct rows, none of them seen, are all kept. */
  lemma {:induction false} DedupOfDistinct(recs: seq<Record>, seen: set<Row>)
    requires Distinct(Rows(recs))
    requires forall i :: 0 <= i < |recs| ==> recs[i].row !in seen
    ensures DedupFrom(recs, seen) == recs
    decreases |recs|
  {
    if recs != [] {
      var x := recs[0];
      assert Rows(recs[1..]) == Rows(recs)[1..];
      forall i | 0 <= i < |recs[1..]| ensures recs[1..][i].row !in seen + {x.row} {
        assert Rows(recs)[0] != Rows(recs)[i + 1];
      }
      DedupOfDistinct(recs[1..], seen + {x.row});
      assert recs == [x] + recs[1..];
    }
  }

  /** Removing repeated rows and filtering by rules commute. */
  lemma {:induction false} DedupSelectCommute(rules: seq<RowRule>, cols: set<Column>, recs: seq<Record>, seen: set<Row>)
    ensures Select(rules, cols, DedupFrom(recs, seen)) == DedupFrom(Select(rules, cols, recs), seen)
    decreases |recs|
  {
    if recs != [] {
      var x := recs[0];
      var passes := PassesAll(rules, cols, x.row);
      if x.row in seen {
        DedupSelectCommute(rules, cols, recs[1..], seen);
      } else {
        DedupSelectCommute(rules, cols, recs[1..], seen + {x.row});
        if !passes {
          var sel := Select(rules, cols, recs[1..]);
          forall i | 0 <= i < |sel| ensures sel[i].row != x.row {
            assert sel[i] in sel;
          }
          DedupIgnoresAbsent(sel, seen, x.row);
        }
      }
    }
  }

  /** The columns whose absence makes a validator raise. */
  function Needs(v: Validator): seq<Column>
  {
    match v
    case ColumnExistence(required) => required
    case RowFilter(rule) => Accessed(rule)
    case DropDuplicates => []
  }

  /** `validator.validate(df)`. */
  function Apply(v: Validator, f: Frame): (r: Result<Frame>)
    ensures r.Err? <==> exists c :: c in Needs(v) && c !in f.columns
    ensures r.Err? && v.ColumnExistence? ==> r.error == MissingRequiredColumns(MissingFrom(Needs(v), f.columns))
    ensures r.Err? && v.RowFilter? ==> r.error == KeyError([MissingFrom(Needs(v), f.columns)[0]])
    ensures r.Ok? ==> r.value.columns == f.columns && Subsequence(r.value.records, f.records)
  {
    NoneMissing(Needs(v), f.columns);
    match v
    case ColumnExistence(required) =>
      var missing := MissingFrom(required, f.columns);
      if missing != [] then Err(MissingRequiredColumns(missing))
      else SubsequenceRefl(f.records); Ok(f)
    case RowFilter(rule) =>
      var missing := MissingFrom(Accessed(rule), f.columns);
      if missing != [] then Err(KeyError([missing[0]]))
      else
        SelectSubsequence([rule], f.columns, f.records);
        Ok(Frame(f.columns, Select([rule], f.columns, f.records)))
    case DropDuplicates =>
      DedupSubsequence(f.records, {});
      Ok(Frame(f.columns, Dedup(f.records)))
  }

  /** Applying a validator to its own output changes nothing. */
  lemma ApplyIdempotent(v: Validator, f: Frame)
    requires Apply(v, f).Ok?
    ensures Apply(v, Apply(v, f).value) == Apply(v, f)
  {
    match v
    case ColumnExistence(_) =>
    case RowFilter(rule) =>
      var once := Select([rule], f.columns, f.records);
      SelectAllPass([rule], f.columns, once) by {
        forall i | 0 <= i < |once| ensures PassesAll([rule], f.columns, once[i].row) {
          assert once[i] in once;
        }
      }
    case DropDuplicates =>
      DedupDistinct(f.records, {});
      DedupOfDistinct(Dedup(f.records), {});
  }

  /** The validators applied one after another; the first exception stops the chain. */
  function Chain(vs: seq<Validator>, f: Frame): (r: Result<Frame>)
    ensures r.Ok? ==> r.value.columns == f.columns && Subsequence(r.value.records, f.records)
    decreases |vs|
  {
    if vs == [] then SubsequenceRefl(f.records); Ok(f)
    else
      match Apply(vs[0], f)
      case Err(e) => Err(e)
      case Ok(g) =>
        var r := Chain(vs[1..], g);
        if r.Err? then r
        else SubsequenceTrans(r.value.records, g.records, f.records); r
  }

  /** `reset_index(drop=True)` on a successful result. */
  function Relabel(r: Result<Frame>): Result<Frame>
  {
    match r
    case Err(e) => Err(e)
    case Ok(f) => Ok(Frame(f.columns, Reindex(f.records)))
  }

  lemma {:induction false} ChainConcat(a: seq<Validator>, b: seq<Validator>, f: Frame)
    ensures Chain(a + b, f) == match Chain(a, f) { case Err(e) => Err(e) case Ok(g) => Chain(b, g) }
    decreases |a|
  {
    if a == [] {
      assert a + b == b;
    } else {
      assert (a + b)[1..] == a[1..] + b;
      assert (a + b)[0] == a[0];
      match Apply(a[0], f)
      case Err(_) =>
      case Ok(g) => ChainConcat(a[1..], b, g);
    }
  }

  /** One filter validator per rule, in the order of `rules`. */
  function Filters(rules: seq<RowRule>): (vs: seq<Validator>)
    ensures |vs| == |rules|
    ensures forall i :: 0 <= i < |rules| ==> vs[i] == RowFilter(rules[i])
  {
    seq(|rules|, i requires 0 <= i < |rules| => RowFilter(rules[i]))
  }

  /** Every column the rules read, rule after rule. */
  function AccessedAll(rules: seq<RowRule>): seq<Column>
  {
    if rules == [] then [] else Accessed(rules[0]) + AccessedAll(rules[1..])
  }

  lemma {:induction false} MissingFromConcat(a: seq<Column>, b: seq<Column>, present: set<Column>)
    ensures MissingFrom(a + b, present) == MissingFrom(a, present) + MissingFrom(b, present)
    decreases |a|
  {
    if a == [] {
      assert a + b == b;
    } else {
      assert (a + b)[1..] == a[1..] + b;
      MissingFromConcat(a[1..], b, present);
    }
  }

  /**
   * A chain of filters raises KeyError on the first column it reads that the
   * frame lacks; otherwise it keeps exactly the records passing every rule.
   */
  lemma {:induction false} ChainOfFilters(rules: seq<RowRule>, f: Frame)
    ensures var missing := MissingFrom(AccessedAll(rules), f.columns);
      Chain(Filters(rules), f)
        == if missing != [] then Err(KeyError([missing[0]]))
           else Ok(Frame(f.columns, Select(rules, f.columns, f.records)))
    decreases |rules|
  {
    if rules == [] {
      SelectAllPass(rules, f.columns, f.records);
    } else {
      var vs := Filters(rules);
      var first := MissingFrom(Accessed(rules[0]), f.columns);
      var later := MissingFrom(AccessedAll(rules[1..]), f.columns);
      assert vs[0] == RowFilter(rules[0]);
      assert vs[1..] == Filters(rules[1..]);
      MissingFromConcat(Accessed(rules[0]), AccessedAll(rules[1..]), f.columns);
      assert MissingFrom(AccessedAll(rules), f.columns) == first + later;
      if first == [] {
        var g := Frame(f.columns, Select([rules[0]], f.columns, f.records));
        assert Apply(vs[0], f) == Ok(g);
        assert Chain(vs, f) == Chain(vs[1..], g);
        ChainOfFilters(rules[1..], g);
        SelectTwice(rules[1..], [rules[0]], f.columns, f.records);
        assert [rules[0]] + rules[1..] == rules;
      }
    }
  }
}
