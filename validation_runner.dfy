/**
 * validation/validation_runner.py: the nine-step validation of one chunk.
 * The column check runs first, then the seven row filters, then the removal
 * of repeated rows; the result is relabelled 0..n-1.
 */
module ValidationRunner {
  import opened Sequences
  import opened Frames
  import opened Validators

  /** REQUIRED_COLUMNS, in the order the column check reports them. */
  const RequiredColumns: seq<Column> :=
    [PassengerCount, TripDistance, TipAmount, TotalAmount, FareAmount, PickupTime, DropoffTime]

  /** The row rules of the chain, in the order they run. */
  const ChunkRules: seq<RowRule> :=
    [NoMissingValues, PositivePassengerCount, PositiveDistance, PositiveFare,
     NonNegativeTip, ValidDateRange, TripDuration]

  /** The validators `validate_chunk` runs, in order. */
  const ChunkValidators: seq<Validator> := [
    ColumnExistence(RequiredColumns),
    RowFilter(NoMissingValues),
    RowFilter(PositivePassengerCount),
    RowFilter(PositiveDistance),
    RowFilter(PositiveFare),
    RowFilter(NonNegativeTip),
    RowFilter(ValidDateRange),
    RowFilter(TripDuration),
    DropDuplicates
  ]

  /**
   * What `validate_chunk` returns: a ValueError naming the absent required
   * columns, or the records whose rows pass every rule, first copy of each row
   * only, in input order and relabelled.
   */
  function Validated(df: Frame): (r: Result<Frame>)
    ensures r.Err? <==> exists c :: c in RequiredColumns && c !in df.columns
    ensures r.Err? ==> (r.error.MissingRequiredColumns?
      && forall c :: c in r.error.missing <==> c in RequiredColumns && c !in df.columns)
    ensures r.Ok? ==> r.value.columns == df.columns && |r.value.records| <= |df.records|
  {
    var missing := MissingFrom(RequiredColumns, df.columns);
    NoneMissing(RequiredColumns, df.columns);
    MissingFromMembers(RequiredColumns, df.columns);
    if missing != [] then Err(MissingRequiredColumns(missing))
    else Ok(Frame(df.columns, Reindex(Dedup(Select(ChunkRules, df.columns, df.records)))))
  }

  /** With every required column present, the filtered, deduplicated, relabelled records. */
  lemma ValidatedWhenPresent(df: Frame)
    requires RequiredSet <= df.columns
    ensures Validated(df) == Ok(Frame(df.columns, Reindex(Dedup(Select(ChunkRules, df.columns, df.records)))))
  {
    NoneMissing(RequiredColumns, df.columns);
  }

  /** Every output row passes every rule, and the output is labelled 0..n-1. */
  lemma ValidatedRowsPass(df: Frame)
    requires Validated(df).Ok?
    ensures var out := Validated(df).value.records;
      forall i :: 0 <= i < |out| ==> PassesAll(ChunkRules, df.columns, out[i].row) && out[i].index == i
  {
    var kept := Dedup(Select(ChunkRules, df.columns, df.records));
    var out := Validated(df).value.records;
    assert forall i :: 0 <= i < |out| ==> out[i].row == kept[i].row && kept[i] in kept;
  }

  /** No two output rows are equal. */
  lemma ValidatedDistinct(df: Frame)
    requires Validated(df).Ok?
    ensures Distinct(Rows(Validated(df).value.records))
  {
    DedupDistinct(Select(ChunkRules, df.columns, df.records), {});
  }

  /** The output rows are input rows, in input order. */
  lemma ValidatedSubsequence(df: Frame)
    requires Validated(df).Ok?
    ensures Subsequence(Rows(Validated(df).value.records), Rows(df.records))
  {
    var selected := Select(ChunkRules, df.columns, df.records);
    var kept := Dedup(selected);
    SelectSubsequence(ChunkRules, df.columns, df.records);
    DedupSubsequence(selected, {});
    SubsequenceTrans(kept, selected, df.records);
    SubsequenceRows(kept, df.records);
  }

  /** Every input row that passes all rules is among the output rows. */
  lemma ValidatedKeepsPassingRows(df: Frame, x: Record)
    requires Validated(df).Ok?
    requires x in df.records && PassesAll(ChunkRules, df.columns, x.row)
    ensures x.row in Rows(Validated(df).value.records)
  {
    var selected := Select(ChunkRules, df.columns, df.records);
    var kept := Dedup(selected);
    assert Validated(df).value.records == Reindex(kept);
    assert exists k :: 0 <= k < |kept| && kept[k].row == x.row by {
      assert x in selected;
      DedupKeepsEveryRow(selected, {}, x);
      var y :| y in kept && y.row == x.row;
      var k :| 0 <= k < |kept| && kept[k] == y;
    }
    var k :| 0 <= k < |kept| && kept[k].row == x.row;
    assert Rows(Reindex(kept))[k] == Rows(kept)[k];
  }

  /** The nine validators are the column check, one filter per rule, and the duplicate removal. */
  lemma ChunkValidatorsSplit()
    ensures ChunkValidators == [ColumnExistence(RequiredColumns)] + Filters(ChunkRules) + [DropDuplicates]
  {
  }

  /** The row filters read only required columns. */
  lemma ChunkRulesReadRequired()
    ensures forall c :: c in AccessedAll(ChunkRules) ==> c in RequiredColumns
  {
    var rules := ChunkRules;
    assert AccessedAll(rules[6..]) == [DropoffTime, PickupTime];
    assert AccessedAll(rules[5..]) == [DropoffTime, PickupTime] + AccessedAll(rules[6..]);
    assert AccessedAll(rules[4..]) == [TipAmount] + AccessedAll(rules[5..]);
    assert AccessedAll(rules[3..]) == [FareAmount, TotalAmount] + AccessedAll(rules[4..]);
    assert AccessedAll(rules[2..]) == [TripDistance] + AccessedAll(rules[3..]);
    assert AccessedAll(rules[1..]) == [PassengerCount] + AccessedAll(rules[2..]);
    assert AccessedAll(rules) == AccessedAll(rules[1..]);
  }

  /** Running the nine validators and relabelling gives exactly `Validated`. */
  lemma ChainIsValidated(df: Frame)
    ensures Relabel(Chain(ChunkValidators, df)) == Validated(df)
  {
    var check := [ColumnExistence(RequiredColumns)];
    var filters := Filters(ChunkRules);
    ChunkValidatorsSplit();
    ChainConcat(check + filters, [DropDuplicates], df);
    ChainConcat(check, filters, df);
    NoneMissing(RequiredColumns, df.columns);
    if MissingFrom(RequiredColumns, df.columns) == [] {
      assert Chain(check, df) == Ok(df);
      ChunkRulesReadRequired();
      NoneMissing(AccessedAll(ChunkRules), df.columns);
      ChainOfFilters(ChunkRules, df);
      var g := Frame(df.columns, Select(ChunkRules, df.columns, df.records));
      assert Chain([DropDuplicates], g) == Ok(Frame(df.columns, Dedup(g.records)));
    } else {
      assert Chain(check, df).Err?;
    }
  }

  /** `validate_chunk`: the validators run one after another, then the index is reset. */
  method ValidateChunk(df: Frame) returns (r: Result<Frame>)
    ensures r == Validated(df)
  {
    var validators := ChunkValidators;
    var cur := df;
    var i := 0;
    ChainIsValidated(df);
    while i < |validators|
      invariant 0 <= i <= |validators|
      invariant Chain(validators, df) == Chain(validators[i..], cur)
    {
      assert validators[i..][0] == validators[i];
      assert validators[i..][1..] == validators[i + 1..];
      var step := Apply(validators[i], cur);
      if step.Err? {
        return Err(step.error);
      }
      cur := step.value;
      i := i + 1;
    }
    r := Ok(Frame(cur.columns, Reindex(cur.records)));
  }

  /** `run_all_validations`, the alias of `validate_chunk`. */
  method RunAllValidations(df: Frame) returns (r: Result<Frame>)
    ensures r == Validated(df)
  {
    r := ValidateChunk(df);
  }

  /** Validating a validated frame gives it back unchanged. */
  lemma ValidatedIdempotent(df: Frame)
    requires Validated(df).Ok?
    ensures Validated(Validated(df).value) == Validated(df)
  {
    var out := Validated(df).value;
    ValidatedRowsPass(df);
    ValidatedDistinct(df);
    SelectAllPass(ChunkRules, out.columns, out.records);
    DedupOfDistinct(out.records, {});
    ReindexLabelled(out.records);
  }

  /** What a row must satisfy to pass every rule of the chain, written out. */
  lemma PassesChunkRules(cols: set<Column>, r: Row)
    ensures PassesAll(ChunkRules, cols, r) <==>
      && !HasMissing(cols, r)
      && Positive(r.passengers) && Positive(r.distance)
      && Positive(r.fare) && Positive(r.total)
      && r.tip.Some? && r.tip.value >= 0.0
      && r.pickup.Some? && r.dropoff.Some?
      && 0 < r.dropoff.value - r.pickup.value < DayInSeconds
  {
    var rules := ChunkRules;
    assert rules[0] == NoMissingValues && rules[1] == PositivePassengerCount;
    assert rules[2] == PositiveDistance && rules[3] == PositiveFare && rules[4] == NonNegativeTip;
    assert rules[5] == ValidDateRange && rules[6] == TripDuration && |rules| == 7;
  }

  /** The outcome of filtering two records. */
  lemma SelectPair(rules: seq<RowRule>, cols: set<Column>, a: Record, b: Record)
    ensures Select(rules, cols, [a, b])
      == (if PassesAll(rules, cols, a.row) then [a] else [])
       + (if PassesAll(rules, cols, b.row) then [b] else [])
  {
    assert [a, b][1..] == [b];
    assert [b][1..] == [];
  }

  /** The outcome of removing repeated rows from two records. */
  lemma DedupPair(a: Record, b: Record)
    ensures Dedup([a, b]) == if a.row == b.row then [a] else [a, b]
  {
    assert [a, b][1..] == [b];
    assert [b][1..] == [];
    assert {} + {a.row} == {a.row};
    assert Dedup([a, b]) == [a] + DedupFrom([b], {a.row});
    assert DedupFrom([b], {a.row}) == if a.row == b.row then [] else [b];
  }

  /** A trip with the given values and no vendor or further columns. */
  function Trip(pickup: int, dropoff: int, passengers: real, distance: real,
                fare: real, tip: real, total: real): Row
  {
    Row(Some(pickup), Some(dropoff), Some(passengers), Some(distance), Some(fare),
        Some(tip), Some(total), None, [])
  }

  /** The required columns as the column set of a frame. */
  const RequiredSet: set<Column> :=
    {PassengerCount, TripDistance, TipAmount, TotalAmount, FareAmount, PickupTime, DropoffTime}

  /** 2024-01-01 00:00 in seconds since the epoch, and one hour. */
  const Jan1: int := 1704067200
  const Hour: int := 3600

  /** A trip with positive values, a non-negative tip and a duration under a day passes every filter. */
  lemma TripPasses(pickup: int, dropoff: int, passengers: real, distance: real, fare: real, tip: real, total: real)
    requires passengers > 0.0 && distance > 0.0 && fare > 0.0 && total > 0.0 && tip >= 0.0
    requires 0 < dropoff - pickup < DayInSeconds
    ensures PassesAll(ChunkRules, RequiredSet, Trip(pickup, dropoff, passengers, distance, fare, tip, total))
  {
    PassesChunkRules(RequiredSet, Trip(pickup, dropoff, passengers, distance, fare, tip, total));
  }

  /** A frame of one row that passes every filter validates to itself. */
  lemma ValidatedSingle(r: Row)
    requires PassesAll(ChunkRules, RequiredSet, r)
    ensures Validated(Frame(RequiredSet, [Record(0, r)])) == Ok(Frame(RequiredSet, [Record(0, r)]))
  {
    var x := Record(0, r);
    ValidatedWhenPresent(Frame(RequiredSet, [x]));
    assert [x][1..] == [];
    assert Select(ChunkRules, RequiredSet, [x]) == [x];
    assert Dedup([x]) == [x] by {
      assert DedupFrom([x][1..], {x.row}) == [];
    }
    ReindexLabelled([x]);
  }

  /** Two rows that pass every filter are both kept, unless they are equal, when the first is. */
  lemma ValidatedPair(a: Row, b: Row)
    requires PassesAll(ChunkRules, RequiredSet, a) && PassesAll(ChunkRules, RequiredSet, b)
    ensures Validated(Frame(RequiredSet, [Record(0, a), Record(1, b)]))
      == Ok(Frame(RequiredSet, if a == b then [Record(0, a)] else [Record(0, a), Record(1, b)]))
  {
    var x, y := Record(0, a), Record(1, b);
    ValidatedWhenPresent(Frame(RequiredSet, [x, y]));
    SelectPair(ChunkRules, RequiredSet, x, y);
    DedupPair(x, y);
    if a == b {
      ReindexLabelled([x]);
    } else {
      ReindexLabelled([x, y]);
    }
  }

  /** Two clean trips are both kept. */
  lemma CleanTripsKept()
    ensures var a := Record(0, Trip(Jan1, Jan1 + Hour, 1.0, 1.0, 10.0, 1.5, 15.0));
      var b := Record(1, Trip(Jan1 + 24 * Hour, Jan1 + 25 * Hour, 2.0, 2.0, 20.0, 2.0, 25.0));
      Validated(Frame(RequiredSet, [a, b])) == Ok(Frame(RequiredSet, [a, b]))
  {
    TripPasses(Jan1, Jan1 + Hour, 1.0, 1.0, 10.0, 1.5, 15.0);
    TripPasses(Jan1 + 24 * Hour, Jan1 + 25 * Hour, 2.0, 2.0, 20.0, 2.0, 25.0);
    ValidatedPair(Trip(Jan1, Jan1 + Hour, 1.0, 1.0, 10.0, 1.5, 15.0),
                  Trip(Jan1 + 24 * Hour, Jan1 + 25 * Hour, 2.0, 2.0, 20.0, 2.0, 25.0));
  }

  /** A zero-second trip and a 25-hour trip are both dropped. */
  lemma BadDurationsDropped()
    ensures var a := Record(0, Trip(Jan1, Jan1, 1.0, 1.0, 10.0, 1.0, 15.0));
      var b := Record(1, Trip(Jan1, Jan1 + 25 * Hour, 1.0, 1.0, 10.0, 1.0, 15.0));
      Validated(Frame(RequiredSet, [a, b])) == Ok(Frame(RequiredSet, []))
  {
    var a := Record(0, Trip(Jan1, Jan1, 1.0, 1.0, 10.0, 1.0, 15.0));
    var b := Record(1, Trip(Jan1, Jan1 + 25 * Hour, 1.0, 1.0, 10.0, 1.0, 15.0));
    ValidatedWhenPresent(Frame(RequiredSet, [a, b]));
    PassesChunkRules(RequiredSet, a.row);
    PassesChunkRules(RequiredSet, b.row);
    SelectPair(ChunkRules, RequiredSet, a, b);
  }

  /** Two identical trips leave the first one. */
  lemma DuplicateTripsLeaveOne()
    ensures var t := Trip(Jan1, Jan1 + Hour, 1.0, 1.0, 10.0, 1.0, 15.0);
      Validated(Frame(RequiredSet, [Record(0, t), Record(1, t)])) == Ok(Frame(RequiredSet, [Record(0, t)]))
  {
    TripPasses(Jan1, Jan1 + Hour, 1.0, 1.0, 10.0, 1.0, 15.0);
    ValidatedPair(Trip(Jan1, Jan1 + Hour, 1.0, 1.0, 10.0, 1.0, 15.0), Trip(Jan1, Jan1 + Hour, 1.0, 1.0, 10.0, 1.0, 15.0));
  }

  /** Five of the seven required columns are absent from a frame with only distance and fare. */
  lemma FiveColumnsMissing()
    ensures MissingFrom(RequiredColumns, {TripDistance, FareAmount})
      == [PassengerCount, TipAmount, TotalAmount, PickupTime, DropoffTime]
  {
    var req, present := RequiredColumns, {TripDistance, FareAmount};
    assert MissingFrom(req[5..], present) == [PickupTime, DropoffTime] by {
      assert req[5..][1..] == [DropoffTime] && req[5..][1..][1..] == [];
    }
    assert MissingFrom(req[4..], present) == MissingFrom(req[5..], present) by {
      assert req[4..][1..] == req[5..];
    }
    assert MissingFrom(req[2..], present) == [TipAmount, TotalAmount] + MissingFrom(req[4..], present) by {
      assert req[2..][1..] == req[3..] && req[3..][1..] == req[4..];
    }
    assert MissingFrom(req, present) == [PassengerCount] + MissingFrom(req[2..], present) by {
      assert req[1..][1..] == req[2..];
    }
  }

  /** A frame with only distance and fare raises the missing-columns error, naming the other five. */
  lemma MissingColumnsRaise(recs: seq<Record>)
    ensures Validated(Frame({TripDistance, FareAmount}, recs))
      == Err(MissingRequiredColumns([PassengerCount, TipAmount, TotalAmount, PickupTime, DropoffTime]))
  {
    FiveColumnsMissing();
  }
}
