/**
 * core/cleaner.py: `clean_data` validates one chunk and turns any exception
 * of the validation into an empty frame, so that one bad chunk does not stop
 * the processing of the others.
 */
module Cleaner {
  import opened Sequences
  import opened Frames
  import opened Validators
  import opened ValidationRunner

  /** `clean_data`: the validated chunk, or `pd.DataFrame()` when validation raises. */
  function CleanData(df: Frame): (r: Frame)
    ensures |r.records| <= |df.records|
  {
    match Validated(df)
    case Ok(f) => f
    case Err(_) => EmptyFrame
  }

  /**
   * A chunk with every required column is replaced by its validated rows, a
   * chunk without one by the empty frame; every kept row passes every rule
   * and the kept rows are input rows in input order.
   */
  lemma CleanDataMeaning(df: Frame)
    ensures (forall c :: c in RequiredColumns ==> c in df.columns) ==> Validated(df) == Ok(CleanData(df))
    ensures (exists c :: c in RequiredColumns && c !in df.columns) ==> CleanData(df) == EmptyFrame
    ensures forall i :: 0 <= i < |CleanData(df).records| ==>
      PassesAll(ChunkRules, CleanData(df).columns, CleanData(df).records[i].row)
    ensures Subsequence(Rows(CleanData(df).records), Rows(df.records))
  {
    if Validated(df).Ok? {
      ValidatedRowsPass(df);
      ValidatedSubsequence(df);
    }
  }

  /** Filtering five records of which only the last passes keeps only the last. */
  lemma SelectOnlyLast(rules: seq<RowRule>, cols: set<Column>, a: Record, b: Record, c: Record, d: Record, e: Record)
    requires !PassesAll(rules, cols, a.row) && !PassesAll(rules, cols, b.row)
    requires !PassesAll(rules, cols, c.row) && !PassesAll(rules, cols, d.row)
    requires PassesAll(rules, cols, e.row)
    ensures Select(rules, cols, [a, b, c, d, e]) == [e]
  {
    assert [e][1..] == [];
    assert Select(rules, cols, [e]) == [e];
    assert [d, e][1..] == [e];
    assert Select(rules, cols, [d, e]) == [e];
    assert [c, d, e][1..] == [d, e];
    assert Select(rules, cols, [c, d, e]) == [e];
    assert [b, c, d, e][1..] == [c, d, e];
    assert Select(rules, cols, [b, c, d, e]) == [e];
    assert [a, b, c, d, e][1..] == [b, c, d, e];
  }

  /** A single valid trip passes through unchanged. */
  lemma ValidTripPasses()
    ensures var df := Frame(RequiredSet, [Record(0, Trip(Jan1 + 10 * Hour, Jan1 + 10 * Hour + 1800, 1.0, 2.5, 12.0, 3.0, 15.0))]);
      CleanData(df) == df
  {
    TripPasses(Jan1 + 10 * Hour, Jan1 + 10 * Hour + 1800, 1.0, 2.5, 12.0, 3.0, 15.0);
    ValidatedSingle(Trip(Jan1 + 10 * Hour, Jan1 + 10 * Hour + 1800, 1.0, 2.5, 12.0, 3.0, 15.0));
  }

  /** The five trips of the cleaning example: only the last one is valid. */
  const NegativeDistance: Row := Trip(Jan1 + 10 * Hour, Jan1 + 10 * Hour + 1800, 1.0, -1.0, 5.0, 1.0, 6.0)
  const ZeroFare: Row := Trip(Jan1 + 10 * Hour, Jan1 + 10 * Hour + 1800, 1.0, 2.0, 0.0, 1.0, 5.0)
  const NoPassengers: Row := Trip(Jan1 + 10 * Hour, Jan1 + 10 * Hour + 1800, 0.0, 1.5, 10.0, 2.0, 12.0)
  const DropoffFirst: Row := Trip(Jan1 + 12 * Hour, Jan1 + 11 * Hour, 1.0, 3.0, 8.0, 2.0, 10.0)
  const NextMorning: Row := Trip(Jan1 + 33 * Hour, Jan1 + 33 * Hour + 1800, 1.0, 1.0, 5.0, 1.0, 6.0)

  lemma FiveTripsVerdicts()
    ensures !PassesAll(ChunkRules, RequiredSet, NegativeDistance)
    ensures !PassesAll(ChunkRules, RequiredSet, ZeroFare)
    ensures !PassesAll(ChunkRules, RequiredSet, NoPassengers)
    ensures !PassesAll(ChunkRules, RequiredSet, DropoffFirst)
    ensures PassesAll(ChunkRules, RequiredSet, NextMorning)
  {
    PassesChunkRules(RequiredSet, NegativeDistance);
    PassesChunkRules(RequiredSet, ZeroFare);
    PassesChunkRules(RequiredSet, NoPassengers);
    PassesChunkRules(RequiredSet, DropoffFirst);
    PassesChunkRules(RequiredSet, NextMorning);
  }

  lemma FiveTripsSelected()
    ensures Select(ChunkRules, RequiredSet, [Record(0, NegativeDistance), Record(1, ZeroFare),
                                             Record(2, NoPassengers), Record(3, DropoffFirst),
                                             Record(4, NextMorning)])
      == [Record(4, NextMorning)]
  {
    FiveTripsVerdicts();
    SelectOnlyLast(ChunkRules, RequiredSet, Record(0, NegativeDistance), Record(1, ZeroFare),
                   Record(2, NoPassengers), Record(3, DropoffFirst), Record(4, NextMorning));
  }

  /** The five-trip frame of the cleaning example. */
  const FiveTrips: Frame := Frame(RequiredSet, [Record(0, NegativeDistance), Record(1, ZeroFare),
                                                Record(2, NoPassengers), Record(3, DropoffFirst),
                                                Record(4, NextMorning)])

  lemma FiveTripsValidated()
    ensures Validated(FiveTrips) == Ok(Frame(RequiredSet, [Record(0, NextMorning)]))
  {
    var e := Record(4, NextMorning);
    ValidatedWhenPresent(FiveTrips);
    FiveTripsSelected();
    assert Select(ChunkRules, RequiredSet, FiveTrips.records) == [e];
    assert [e][1..] == [];
    assert Dedup([e]) == [e];
    assert Reindex([e]) == [Record(0, NextMorning)];
  }

  /** Of the five trips only the one picked up on 2024-01-02 09:00 survives, relabelled 0. */
  lemma FiveTripsCleaned()
    ensures CleanData(FiveTrips) == Frame(RequiredSet, [Record(0, NextMorning)])
    ensures CleanData(FiveTrips).records[0].row.pickup == Some(Jan1 + 24 * Hour + 9 * Hour)
  {
    FiveTripsValidated();
  }

  /** A trip with a missing fare is removed. */
  lemma MissingFareRemoved()
    ensures var t := Trip(Jan1 + 10 * Hour, Jan1 + 10 * Hour + 1800, 1.0, 2.0, 0.0, 1.0, 10.0).(fare := None);
      CleanData(Frame(RequiredSet, [Record(0, t)])) == Frame(RequiredSet, [])
  {
    var t := Trip(Jan1 + 10 * Hour, Jan1 + 10 * Hour + 1800, 1.0, 2.0, 0.0, 1.0, 10.0).(fare := None);
    ValidatedWhenPresent(Frame(RequiredSet, [Record(0, t)]));
    PassesChunkRules(RequiredSet, t);
    assert [Record(0, t)][1..] == [];
  }

  /**
   * An empty frame with all the columns, its time columns typed as datetimes,
   * gives an empty result with the same columns, without error.
   */
  lemma EmptyFrameStaysEmpty()
    ensures CleanData(Frame(RequiredSet, [])) == Frame(RequiredSet, [])
  {
    ValidatedWhenPresent(Frame(RequiredSet, []));
  }
}
