/**
 * `PriceForecastingModel`: feature preparation with per-column label
 * encoders kept across calls, the `is_trained` guard on prediction, the
 * multi-day trend projection, and the in-memory save/load of the model's
 * fields. The regression itself is abstract: a fitted regressor is the
 * function from a feature vector to a price that the fit produced.
 */
module Model {
  import opened Common
  import opened Calendar
  import opened Frames
  import opened Encoding
  import opened ModelPolicy

  /** scikit-learn's `LinearRegression`: unfitted, or fitted on named feature columns. */
  datatype Regressor = Unfitted | Fitted(featureNames: seq<string>, price: seq<real> -> real)

  /** The selected feature columns of a frame, `data[feature_columns]`. */
  datatype Features = Features(names: seq<string>, rows: seq<seq<Cell>>)

  /** `predict_future_trend`'s result: the future dates and one predicted price per date. */
  datatype Trend = Trend(dates: seq<Date>, prices: seq<real>)

  /** What `save_model` writes and `load_model` reads back. */
  datatype ModelData = ModelData(
    model: Regressor,
    labelEncoders: map<string, Encoder>,
    featureColumns: seq<string>,
    modelType: string,
    isTrained: bool)

  const CategoricalColumns: seq<string> := ["day_of_week", "season"]

  const BaseFeatures: seq<string> :=
    ["month", "day", "day_of_year", "week_of_year", "is_weekend", "demand_score",
     "day_of_week_encoded", "season_encoded"]

  const FlightFeature := "advance_booking_days"

  const DateFeatureColumns: set<string> := {"year", "month", "day", "day_of_year", "week_of_year"}

  /** The calendar columns `prepare_features` derives from the 'date' column; a non-date there is NaT. */
  function DateFeatures(row: Row): Row {
    if "date" !in row then row
    else match row["date"]
      case When(d) =>
        var ymd := ToYmd(d);
        row["year" := Num(ymd.year as real)]["month" := Num(ymd.month as real)]
           ["day" := Num(ymd.day as real)]["day_of_year" := Num(DayOfYear(d) as real)]
           ["week_of_year" := Num(IsoWeek(d) as real)]
      case _ =>
        row["year" := Missing]["month" := Missing]["day" := Missing]
           ["day_of_year" := Missing]["week_of_year" := Missing]
  }

  /** The encoded value of one cell: its code, or 0 for a missing cell filled with `classes_[0]`. */
  function EncodeCell(e: Encoder, c: Cell): Cell {
    match Code(e, c)
    case Some(k) => Num(k as real)
    case None => Num(0.0)
  }

  /** A row with `<col>_encoded` added for the first `k` categorical columns it has an encoder for. */
  function EncodeFirst(k: nat, encoders: map<string, Encoder>, row: Row): Row
    requires k <= |CategoricalColumns|
  {
    if k == 0 then row
    else
      var r := EncodeFirst(k - 1, encoders, row);
      var col := CategoricalColumns[k - 1];
      if col in row && col in encoders then r[col + "_encoded" := EncodeCell(encoders[col], row[col])] else r
  }

  /** A row as `prepare_features` leaves it: date columns derived and categorical columns encoded. */
  function PreparedRow(encoders: map<string, Encoder>, row: Row): Row {
    EncodeFirst(|CategoricalColumns|, encoders, DateFeatures(row))
  }

  /** The feature vector of one row: the prepared row's values of `names`, in order. */
  function FeatureVector(encoders: map<string, Encoder>, names: seq<string>, row: Row): (v: seq<Cell>)
    ensures |v| == |names|
  {
    var prepared := PreparedRow(encoders, row);
    seq(|names|, j requires 0 <= j < |names| => Get(prepared, names[j]))
  }

  /** The columns of a frame after a successful `prepare_features`. */
  function PreparedColumns(columns: set<string>): set<string> {
    (if "date" in columns then columns + DateFeatureColumns else columns)
    + (if "day_of_week" in columns then {"day_of_week_encoded"} else {})
    + (if "season" in columns then {"season_encoded"} else {})
  }

  /** `[col for col in names if col in columns]`. */
  function Present(names: seq<string>, columns: set<string>): (r: seq<string>)
    ensures forall x :: x in r <==> x in names && x in columns
    ensures |r| <= |names|
  {
    if names == [] then []
    else (if names[0] in columns then [names[0]] else []) + Present(names[1..], columns)
  }

  /** A frame that has every wanted name keeps the whole list, in order. */
  lemma {:induction false} PresentAll(names: seq<string>, columns: set<string>)
    requires forall x | x in names :: x in columns
    ensures Present(names, columns) == names
  {
    if names != [] {
      PresentAll(names[1..], columns);
      assert [names[0]] + names[1..] == names;
    }
  }

  /** The fixed feature list, with 'advance_booking_days' appended for a flight model whose frame has it. */
  function WantedFeatures(modelType: string, columns: set<string>): seq<string> {
    BaseFeatures + (if modelType == "flight" && FlightFeature in columns then [FlightFeature] else [])
  }

  /** The feature list of `prepare_features` for a model type and the columns of the prepared frame. */
  function FeatureColumns(modelType: string, columns: set<string>): seq<string> {
    Present(WantedFeatures(modelType, columns), columns)
  }

  predicate Distinct(names: seq<string>) {
    forall i, j | 0 <= i < j < |names| :: names[i] != names[j]
  }

  /** In a list without repeats, a name after the head sits one further than in the tail. */
  lemma IndexOfTail(names: seq<string>, x: string)
    requires names != [] && Distinct(names) && x in names[1..]
    ensures IndexOf(names, x) == 1 + IndexOf(names[1..], x) >= 1
  {
    var k := IndexOf(names[1..], x);
    assert names[k + 1] == x;
  }

  /** Dropping the head of a list without repeats leaves one without repeats, and without the head. */
  lemma DistinctTail(names: seq<string>)
    requires names != [] && Distinct(names)
    ensures Distinct(names[1..]) && names[0] !in names[1..]
  {
    forall k | 0 <= k < |names| - 1 ensures names[1..][k] != names[0] {
      assert names[1..][k] == names[k + 1];
    }
  }

  /** The step of `PresentKeepsOrder` when the head of `names` is kept. */
  lemma KeptHeadOrder(names: seq<string>, columns: set<string>, i: nat, j: nat)
    requires names != [] && Distinct(names) && names[0] in columns
    requires i < j < |Present(names, columns)|
    requires i > 0 ==> var rest := Present(names[1..], columns);
                       IndexOf(names[1..], rest[i - 1]) < IndexOf(names[1..], rest[j - 1])
    ensures IndexOf(names, Present(names, columns)[i]) < IndexOf(names, Present(names, columns)[j])
  {
    var r := Present(names, columns);
    var rest := Present(names[1..], columns);
    DistinctTail(names);
    assert r == [names[0]] + rest;
    var y := rest[j - 1];
    assert r[j] == y && y in names[1..];
    IndexOfTail(names, y);
    if i == 0 {
      assert r[0] == names[0];
    } else {
      var x := rest[i - 1];
      assert r[i] == x && x in names[1..];
      IndexOfTail(names, x);
    }
  }

  /** The step of `PresentKeepsOrder` when the head of `names` is dropped. */
  lemma SkippedHeadOrder(names: seq<string>, columns: set<string>, i: nat, j: nat)
    requires names != [] && Distinct(names) && names[0] !in columns
    requires i < j < |Present(names, columns)|
    requires var rest := Present(names[1..], columns);
             IndexOf(names[1..], rest[i]) < IndexOf(names[1..], rest[j])
    ensures IndexOf(names, Present(names, columns)[i]) < IndexOf(names, Present(names, columns)[j])
  {
    var r := Present(names, columns);
    DistinctTail(names);
    assert r == Present(names[1..], columns);
    IndexOfTail(names, r[i]);
    IndexOfTail(names, r[j]);
  }

  /** `Present` keeps the order of `names`: a kept name comes before the names kept after it. */
  lemma {:induction false} PresentKeepsOrder(names: seq<string>, columns: set<string>, i: nat, j: nat)
    requires Distinct(names)
    requires i < j < |Present(names, columns)|
    ensures IndexOf(names, Present(names, columns)[i]) < IndexOf(names, Present(names, columns)[j])
  {
    DistinctTail(names);
    if names[0] in columns {
      if i > 0 {
        PresentKeepsOrder(names[1..], columns, i - 1, j - 1);
      }
      KeptHeadOrder(names, columns, i, j);
    } else {
      PresentKeepsOrder(names[1..], columns, i, j);
      SkippedHeadOrder(names, columns, i, j);
    }
  }

  lemma WantedDistinct(modelType: string, columns: set<string>)
    ensures Distinct(WantedFeatures(modelType, columns))
  {
  }

  /** The feature list holds the wanted features that the frame has, and nothing else. */
  lemma FeatureColumnsMembers(modelType: string, columns: set<string>)
    ensures var r := FeatureColumns(modelType, columns);
            && (forall x :: x in r <==> x in columns && (x in BaseFeatures || (x == FlightFeature && modelType == "flight")))
            && (FlightFeature in r <==> modelType == "flight" && FlightFeature in columns)
  {
    assert FlightFeature !in BaseFeatures;
  }

  /** The feature list keeps the fixed order of the wanted features. */
  lemma FeatureColumnsOrdered(modelType: string, columns: set<string>, i: nat, j: nat)
    requires i < j < |FeatureColumns(modelType, columns)|
    ensures var wanted := WantedFeatures(modelType, columns);
            var r := FeatureColumns(modelType, columns);
            IndexOf(wanted, r[i]) < IndexOf(wanted, r[j])
  {
    WantedDistinct(modelType, columns);
    PresentKeepsOrder(WantedFeatures(modelType, columns), columns, i, j);
  }

  /** 'advance_booking_days', when selected, is the last feature. */
  lemma FlightFeatureLast(modelType: string, columns: set<string>)
    requires FlightFeature in FeatureColumns(modelType, columns)
    ensures var r := FeatureColumns(modelType, columns); r[|r| - 1] == FlightFeature
  {
    var wanted := WantedFeatures(modelType, columns);
    var r := FeatureColumns(modelType, columns);
    FeatureColumnsMembers(modelType, columns);
    WantedDistinct(modelType, columns);
    assert wanted[|wanted| - 1] == FlightFeature;
    var k :| 0 <= k < |r| && r[k] == FlightFeature;
    if k < |r| - 1 {
      PresentKeepsOrder(wanted, columns, k, |r| - 1);
      assert false;
    }
  }

  /** Every encoder of `before` is still in `after`, unchanged. */
  predicate KeepsEncoders(before: map<string, Encoder>, after: map<string, Encoder>) {
    forall c | c in before :: c in after && after[c] == before[c]
  }

  /** Every encoder that `after` adds to `before` is for a categorical column of `df` and is fitted on it. */
  predicate FitsNewEncoders(before: map<string, Encoder>, after: map<string, Encoder>, df: Frame) {
    forall c | c in after && c !in before :: c in CategoricalColumns && c in df.columns && after[c] == Fit(Column(df, c))
  }

  /** Every categorical column of `df` has an encoder. */
  predicate EncodesColumns(encoders: map<string, Encoder>, df: Frame) {
    forall c | c in CategoricalColumns && c in df.columns :: c in encoders
  }

  /** Every categorical column that already has an encoder encodes without error. */
  predicate EncodersAccept(encoders: map<string, Encoder>, df: Frame) {
    forall c | c in CategoricalColumns && c in df.columns && c in encoders ::
      EncodeColumn(c, encoders[c], Column(df, c)).Ok?
  }

  predicate Numeric(v: seq<Cell>) {
    forall j | 0 <= j < |v| :: v[j].Num?
  }

  function Values(v: seq<Cell>): (xs: seq<real>)
    requires Numeric(v)
    ensures |xs| == |v|
  {
    seq(|v|, j requires 0 <= j < |v| => v[j].x)
  }

  /** `LinearRegression.predict` on a frame of features. */
  function RegressorPredict(reg: Regressor, x: Features): (r: Result<seq<real>>)
    ensures r.Ok? <==> reg.Fitted? && x.names == reg.featureNames && |x.rows| > 0 &&
                       forall i | 0 <= i < |x.rows| :: Numeric(x.rows[i])
    ensures r.Ok? ==> |r.value| == |x.rows|
    ensures r.Ok? ==> forall i | 0 <= i < |x.rows| :: Numeric(x.rows[i]) && r.value[i] == reg.price(Values(x.rows[i]))
  {
    match reg
    case Unfitted => Err(NotFitted)
    case Fitted(names, price) =>
      if x.names != names then Err(FeatureNamesMismatch)
      else if |x.rows| == 0 then Err(TooFewSamples)
      else if exists i | 0 <= i < |x.rows| :: !Numeric(x.rows[i]) then Err(NonNumericInput)
      else Ok(seq(|x.rows|, i requires 0 <= i < |x.rows| => price(Values(x.rows[i]))))
  }

  /** The feature vectors and prices of the training rows, those outside `testRows`, are numbers. */
  predicate TrainingRowsNumeric(x: Features, y: seq<Cell>, testRows: set<int>)
    requires |y| == |x.rows|
  {
    forall i | 0 <= i < |x.rows| && i !in testRows :: Numeric(x.rows[i]) && y[i].Num?
  }

  /** The feature vectors and prices of the test rows are numbers. */
  predicate TestRowsNumeric(x: Features, y: seq<Cell>, testRows: set<int>)
    requires |y| == |x.rows|
  {
    forall i | 0 <= i < |x.rows| && i in testRows :: Numeric(x.rows[i]) && y[i].Num?
  }

  /** The training and test rows together are every row: both parts are numeric iff all the input is. */
  lemma SplitCoversRows(x: Features, y: seq<Cell>, testRows: set<int>)
    requires |y| == |x.rows|
    ensures TrainingRowsNumeric(x, y, testRows) && TestRowsNumeric(x, y, testRows) <==>
            (forall i | 0 <= i < |x.rows| :: Numeric(x.rows[i])) && Numeric(y)
  {
    if TrainingRowsNumeric(x, y, testRows) && TestRowsNumeric(x, y, testRows) {
      forall i | 0 <= i < |x.rows| ensures Numeric(x.rows[i]) && y[i].Num? {
        if i in testRows { } else { }
      }
    }
  }

  /**
   * `train_test_split` and `LinearRegression.fit` on the training rows, those
   * outside `testRows`; the fitted price function is given.
   */
  function FitRegressor(x: Features, y: seq<Cell>, fitted: seq<real> -> real, testRows: set<int>): (r: Result<Regressor>)
    requires |y| == |x.rows|
    ensures r.Ok? <==> |x.rows| >= 2 && x.names != [] && TrainingRowsNumeric(x, y, testRows)
    ensures r.Ok? ==> r.value.Fitted? && r.value.featureNames == x.names && r.value.price == fitted
  {
    if |x.rows| < 2 then Err(TooFewSamples)   // one side of the 80/20 split would be empty
    else if x.names == [] then Err(NoFeatures)
    else if !TrainingRowsNumeric(x, y, testRows) then Err(NonNumericInput)
    else Ok(Fitted(x.names, fitted))
  }

  /** The feature frame `prepare_features` gives for `names`: one feature vector per row. */
  function PreparedFeatures(encoders: map<string, Encoder>, names: seq<string>, df: Frame): (x: Features)
    ensures x.names == names && |x.rows| == |df.rows|
  {
    Features(names, seq(|df.rows|, i requires 0 <= i < |df.rows| => FeatureVector(encoders, names, df.rows[i])))
  }

  /** The heuristic demand of a future date, before noise. */
  function DemandEstimate(d: Date): real {
    100.0
    + (if Weekday(d) >= 5 then 10.0 else 0.0)
    + (if Month(d) in {6, 7, 8, 12} then 15.0 else 0.0)
  }

  /** The keys of every record `predict_future_trend` synthesizes. */
  const FutureKeys: set<string> := {"date", "day_of_week", "month", "is_weekend", "season", "demand_score", FlightFeature}

  /** The record `predict_future_trend` synthesizes for one future date. */
  function FutureRow(modelType: string, d: Date, noise: real): Row {
    map[
      "date" := When(d),
      "day_of_week" := Text(DayName(d)),
      "month" := Num(Month(d) as real),
      "is_weekend" := Num(if Weekday(d) >= 5 then 1.0 else 0.0),
      "season" := Text(GetSeason(Month(d))),
      "demand_score" := Num(DemandEstimate(d) + noise),
      FlightFeature := if modelType == "flight" then Num(30.0) else Missing
    ]
  }

  /**
   * The synthesized record: demand within 5 of the heuristic estimate, the
   * weekend flag, the season of its month, and 30 booking days only for flights.
   */
  lemma FutureRowFields(modelType: string, d: Date, noise: real)
    requires -5.0 <= noise < 5.0
    ensures var row := FutureRow(modelType, d, noise);
            && row["demand_score"].Num?
            && DemandEstimate(d) - 5.0 <= row["demand_score"].x < DemandEstimate(d) + 5.0
            && (row["is_weekend"] == Num(1.0) <==> Weekday(d) >= 5)
            && row["season"] == Text(GetSeason(Month(d)))
            && row["day_of_week"] == Text(DayName(d))
            && (row[FlightFeature] == Num(30.0) <==> modelType == "flight")
  {
  }

  /** The first loop of `predict_future_trend`: `current_date + timedelta(days=i)` for i in 1..days_ahead. */
  method FutureDates(currentDate: Date, daysAhead: int) returns (r: Result<seq<Date>>)
    ensures r.Err? <==> daysAhead >= 1 && currentDate + daysAhead > MaxOrdinal
    ensures r.Err? ==> r.error == DateOverflow
    ensures r.Ok? ==> |r.value| == (if daysAhead >= 1 then daysAhead else 0)
    ensures r.Ok? ==> forall i | 0 <= i < |r.value| :: r.value[i] == currentDate + i + 1
  {
    var futureDates: seq<Date> := [];
    var i := 1;
    while i <= daysAhead
      invariant 1 <= i <= (if daysAhead >= 1 then daysAhead + 1 else 1)
      invariant i - 1 + currentDate <= MaxOrdinal
      invariant |futureDates| == i - 1
      invariant forall k | 0 <= k < i - 1 :: futureDates[k] == currentDate + k + 1
    {
      var next := AddDays(currentDate, i);
      if next.None? {
        return Err(DateOverflow);
      }
      futureDates := futureDates + [next.value];
      i := i + 1;
    }
    r := Ok(futureDates);
  }

  /** The second loop of `predict_future_trend`: one synthesized record per date, in order. */
  method FutureRecords(modelType: string, dates: seq<Date>, noise: seq<real>) returns (records: seq<Row>)
    requires |dates| <= |noise|
    ensures |records| == |dates|
    ensures forall j | 0 <= j < |dates| :: records[j] == FutureRow(modelType, dates[j], noise[j])
  {
    records := [];
    for k := 0 to |dates|
      invariant |records| == k
      invariant forall j | 0 <= j < k :: records[j] == FutureRow(modelType, dates[j], noise[j])
    {
      ghost var before := records;
      records := records + [FutureRow(modelType, dates[k], noise[k])];
      assert forall j | 0 <= j < k :: records[j] == before[j];
    }
  }

  /**
   * `prices` are what the regressor `reg` gives, record by record, for the
   * feature vectors `names` of `records` prepared with `encoders`.
   */
  predicate PredictedFrom(reg: Regressor, encoders: map<string, Encoder>, names: seq<string>, records: seq<Row>, prices: seq<real>) {
    && reg.Fitted? && |prices| == |records|
    && forall i | 0 <= i < |records| ::
         Numeric(FeatureVector(encoders, names, records[i]))
         && prices[i] == reg.price(Values(FeatureVector(encoders, names, records[i])))
  }

  /**
   * The records `predict_future_trend` hands to `predict`: one synthesized
   * record per future date (none when the last date would pass 9999-12-31,
   * where the dates loop fails first).
   */
  function FutureRows(modelType: string, currentDate: Date, daysAhead: int, noise: seq<real>): (rows: seq<Row>)
    requires daysAhead <= |noise|
    ensures |rows| == (if daysAhead >= 1 && currentDate + daysAhead <= MaxOrdinal then daysAhead else 0)
    ensures forall i | 0 <= i < |rows| :: rows[i].Keys == FutureKeys
  {
    var n := if daysAhead >= 1 && currentDate + daysAhead <= MaxOrdinal then daysAhead else 0;
    seq(n, i requires 0 <= i < n => FutureRow(modelType, currentDate + i + 1, noise[i]))
  }

  /** The two loops of `predict_future_trend` build exactly `FutureRows`. */
  lemma FutureRecordsAreFutureRows(modelType: string, currentDate: Date, daysAhead: int, noise: seq<real>,
                                   dates: seq<Date>, records: seq<Row>)
    requires daysAhead <= |noise| && (daysAhead >= 1 ==> currentDate + daysAhead <= MaxOrdinal)
    requires |dates| == (if daysAhead >= 1 then daysAhead else 0)
    requires forall i | 0 <= i < |dates| :: dates[i] == currentDate + i + 1
    requires |records| == |dates|
    requires forall j | 0 <= j < |dates| :: records[j] == FutureRow(modelType, dates[j], noise[j])
    ensures records == FutureRows(modelType, currentDate, daysAhead, noise)
  {
  }

  /** The two loops of `predict_future_trend`: the future dates and their synthesized records. */
  method FutureData(modelType: string, currentDate: Date, daysAhead: int, noise: seq<real>)
    returns (r: Result<(seq<Date>, seq<Row>)>)
    requires daysAhead <= |noise|
    ensures r.Err? <==> daysAhead >= 1 && currentDate + daysAhead > MaxOrdinal
    ensures r.Err? ==> r.error == DateOverflow
    ensures r.Ok? ==> |r.value.0| == (if daysAhead >= 1 then daysAhead else 0)
    ensures r.Ok? ==> forall i | 0 <= i < |r.value.0| :: r.value.0[i] == currentDate + i + 1
    ensures r.Ok? ==> r.value.1 == FutureRows(modelType, currentDate, daysAhead, noise)
  {
    var dates := FutureDates(currentDate, daysAhead);
    if dates.Err? {
      return Err(dates.error);
    }
    var records := FutureRecords(modelType, dates.value, noise);
    FutureRecordsAreFutureRows(modelType, currentDate, daysAhead, noise, dates.value, records);
    r := Ok((dates.value, records));
  }

  /** Restating the encoder facts of one list of records for an equal list. */
  lemma SameRecords(before: map<string, Encoder>, after: map<string, Encoder>, records: seq<Row>, rows: seq<Row>)
    requires records == rows && FitsNewEncoders(before, after, FromRecords(records))
    ensures FitsNewEncoders(before, after, FromRecords(rows))
  {
  }

  /** Restating the predictions of one list of records for an equal list. */
  lemma SamePredictions(reg: Regressor, encoders: map<string, Encoder>, names: seq<string>,
                        records: seq<Row>, rows: seq<Row>, prices: seq<real>)
    requires records == rows && PredictedFrom(reg, encoders, names, records, prices)
    ensures PredictedFrom(reg, encoders, names, rows, prices)
  {
  }

  class PriceForecastingModel {
    var modelType: string
    var regressor: Regressor
    var labelEncoders: map<string, Encoder>
    var featureColumns: seq<string>
    var isTrained: bool

    constructor (modelType: string)
      ensures this.modelType == modelType && regressor == Unfitted
      ensures labelEncoders == map[] && featureColumns == [] && !isTrained
    {
      this.modelType := modelType;
      regressor := Unfitted;
      labelEncoders := map[];
      featureColumns := [];
      isTrained := false;
    }

    /**
     * `prepare_features`: derives the date columns, encodes 'day_of_week' and
     * 'season' (fitting an encoder the first time a column is seen, reusing it
     * afterwards), and selects the feature columns.
     */
    method PrepareFeatures(df: Frame) returns (r: Result<Features>)
      requires WellFormed(df)
      modifies this`labelEncoders, this`featureColumns
      ensures KeepsEncoders(old(labelEncoders), labelEncoders)
      ensures FitsNewEncoders(old(labelEncoders), labelEncoders, df)
      ensures r.Ok? <==> EncodersAccept(old(labelEncoders), df)
      ensures r.Ok? ==> EncodesColumns(labelEncoders, df)
      ensures r.Ok? ==> featureColumns == FeatureColumns(modelType, PreparedColumns(df.columns))
      ensures r.Ok? ==> r.value.names == featureColumns && |r.value.rows| == |df.rows|
      ensures r.Ok? ==> forall i | 0 <= i < |df.rows| ::
                r.value.rows[i] == FeatureVector(labelEncoders, featureColumns, df.rows[i])
      ensures r.Err? ==> featureColumns == old(featureColumns)
    {
      var data := DateFeatureFrame(df);
      for k := 0 to |CategoricalColumns|
        invariant StepInvariant(k, labelEncoders, df, data)
        invariant forall c | c in old(labelEncoders) :: c in labelEncoders && labelEncoders[c] == old(labelEncoders)[c]
        invariant forall c | c in labelEncoders && c !in old(labelEncoders) ::
                    c in CategoricalColumns[..k] && c in df.columns && labelEncoders[c] == Fit(Column(df, c))
        invariant forall c | c in CategoricalColumns[..k] && c in df.columns :: c in labelEncoders
        invariant forall c | c in CategoricalColumns[..k] && c in df.columns && c in old(labelEncoders) ::
                    EncodeColumn(c, old(labelEncoders)[c], Column(df, c)).Ok?
        invariant featureColumns == old(featureColumns)
      {
        var col := CategoricalColumns[k];
        assert CategoricalColumns[..k + 1] == CategoricalColumns[..k] + [col];
        if col in df.columns {
          var column := Column(df, col);
          if col !in labelEncoders {
            EncodeFirstIgnoresLaterColumns(k, labelEncoders, labelEncoders[col := Fit(column)], df);
            labelEncoders := labelEncoders[col := Fit(column)];
            FitThenEncode(col, column);
          }
          var codes := EncodeColumn(col, labelEncoders[col], column);
          if codes.Err? {
            return Err(codes.error);
          }
          data := EncodeStep(k, labelEncoders, df, data, codes.value);
        } else {
          SkipStep(k, labelEncoders, df, data);
        }
      }
      PreparedColumnsComplete(df.columns);
      var names := FeatureColumns(modelType, data.columns);
      featureColumns := names;
      r := Ok(Features(names, Select(data, names)));
    }

    /** `predict`: raises unless the model is trained, then prepares features and applies the regressor. */
    method Predict(df: Frame) returns (r: Result<seq<real>>)
      requires WellFormed(df)
      modifies this`labelEncoders, this`featureColumns
      ensures !old(isTrained) ==> r == Err(NotTrained) && labelEncoders == old(labelEncoders) && featureColumns == old(featureColumns)
      ensures KeepsEncoders(old(labelEncoders), labelEncoders)
      ensures FitsNewEncoders(old(labelEncoders), labelEncoders, df)
      ensures r.Ok? ==> EncodesColumns(labelEncoders, df)
      ensures r.Ok? <==> old(isTrained) && EncodersAccept(old(labelEncoders), df) &&
                         regressor.Fitted? && regressor.featureNames == featureColumns && |df.rows| > 0 &&
                         forall i | 0 <= i < |df.rows| :: Numeric(FeatureVector(labelEncoders, featureColumns, df.rows[i]))
      ensures old(isTrained) && EncodersAccept(old(labelEncoders), df) ==>
                featureColumns == FeatureColumns(modelType, PreparedColumns(df.columns))
      ensures r.Ok? ==> regressor.Fitted? && regressor.featureNames == featureColumns && |r.value| == |df.rows| > 0
      ensures r.Ok? ==> PredictedFrom(regressor, labelEncoders, featureColumns, df.rows, r.value)
    {
      if !isTrained {
        return Err(NotTrained);
      }
      var x := PrepareFeatures(df);
      if x.Err? {
        return Err(x.error);
      }
      r := RegressorPredict(regressor, x.value);
    }

    /** `train`: prepares features, reads the 'price' column, fits, and marks the model trained. */
    method Train(df: Frame, fitted: seq<real> -> real, testRows: set<int>) returns (r: Result<()>)
      requires WellFormed(df)
      requires forall k | k in testRows :: 0 <= k < |df.rows|
      requires |df.rows| >= 2 ==> 0 < |testRows| < |df.rows|
      modifies this`labelEncoders, this`featureColumns, this`regressor, this`isTrained
      ensures KeepsEncoders(old(labelEncoders), labelEncoders)
      ensures FitsNewEncoders(old(labelEncoders), labelEncoders, df)
      ensures r.Ok? ==> EncodesColumns(labelEncoders, df)
      ensures r.Ok? <==> EncodersAccept(old(labelEncoders), df) && "price" in df.columns && |df.rows| >= 2 &&
                         featureColumns != [] && Numeric(Column(df, "price")) &&
                         forall i | 0 <= i < |df.rows| :: Numeric(FeatureVector(labelEncoders, featureColumns, df.rows[i]))
      ensures r.Ok? ==> featureColumns == FeatureColumns(modelType, PreparedColumns(df.columns))
      ensures r.Ok? ==> isTrained && regressor.Fitted? && regressor.featureNames == featureColumns && regressor.price == fitted
      ensures r.Err? ==> isTrained == old(isTrained)
      ensures var fits := EncodersAccept(old(labelEncoders), df) && "price" in df.columns && |df.rows| >= 2 &&
                          featureColumns != [] &&
                          TrainingRowsNumeric(PreparedFeatures(labelEncoders, featureColumns, df), Column(df, "price"), testRows);
              (fits ==> regressor == Fitted(featureColumns, fitted)) && (!fits ==> regressor == old(regressor))
    {
      var x := PrepareFeatures(df);
      if x.Err? {
        return Err(x.error);
      }
      if "price" !in df.columns {
        return Err(MissingColumn("price"));
      }
      var y := Column(df, "price");
      assert x.value == PreparedFeatures(labelEncoders, featureColumns, df);
      SplitCoversRows(x.value, y, testRows);
      var fit := FitRegressor(x.value, y, fitted, testRows);
      if fit.Err? {
        return Err(fit.error);
      }
      regressor := fit.value;
      // predict(X_test) and the test MAE raise only after the fit has replaced the coefficients
      if !TestRowsNumeric(x.value, y, testRows) {
        return Err(NonNumericInput);
      }
      isTrained := true;
      r := Ok(());
    }

    /** `self.predict(pd.DataFrame(records))` for records that all have the same keys. */
    method PredictRecords(records: seq<Row>) returns (r: Result<seq<real>>)
      requires forall i | 0 <= i < |records| :: records[i].Keys == records[0].Keys
      modifies this`labelEncoders, this`featureColumns
      ensures !old(isTrained) ==> r == Err(NotTrained) && labelEncoders == old(labelEncoders) && featureColumns == old(featureColumns)
      ensures KeepsEncoders(old(labelEncoders), labelEncoders)
      ensures FitsNewEncoders(old(labelEncoders), labelEncoders, FromRecords(records))
      ensures r.Ok? ==> EncodesColumns(labelEncoders, FromRecords(records))
      ensures r.Ok? <==> old(isTrained) && EncodersAccept(old(labelEncoders), FromRecords(records)) &&
                         regressor.Fitted? && regressor.featureNames == featureColumns && records != [] &&
                         forall i | 0 <= i < |records| :: Numeric(FeatureVector(labelEncoders, featureColumns, records[i]))
      ensures old(isTrained) && records == [] ==> r.Err? && featureColumns == []
      ensures r.Ok? ==> regressor.Fitted? && regressor.featureNames == featureColumns && |r.value| == |records|
      ensures r.Ok? ==> PredictedFrom(regressor, labelEncoders, featureColumns, records, r.value)
    {
      var frame := FromRecords(records);
      if records != [] {
        FromUniformRecords(records, records[0].Keys);
      } else {
        EmptyFrame(modelType, labelEncoders);
      }
      r := Predict(frame);
    }

    /**
     * `predict_future_trend`: the dates `current_date + i` for i in 1..days_ahead,
     * a synthesized record for each, and their predicted prices. `noise[i]` is
     * the `np.random.uniform(-5, 5)` draw for the i-th date.
     */
    method PredictFutureTrend(currentDate: Date, daysAhead: int, noise: seq<real>) returns (r: Result<Trend>)
      requires daysAhead <= |noise|
      modifies this`labelEncoders, this`featureColumns
      ensures daysAhead >= 1 && currentDate + daysAhead > MaxOrdinal ==>
                r == Err(DateOverflow) && labelEncoders == old(labelEncoders) && featureColumns == old(featureColumns)
      ensures !old(isTrained) ==> r.Err? && labelEncoders == old(labelEncoders) && featureColumns == old(featureColumns)
      ensures old(isTrained) && daysAhead <= 0 ==> r.Err? && featureColumns == []
      ensures KeepsEncoders(old(labelEncoders), labelEncoders)
      ensures FitsNewEncoders(old(labelEncoders), labelEncoders, FromRecords(FutureRows(modelType, currentDate, daysAhead, noise)))
      ensures r.Ok? ==> forall c | c in CategoricalColumns :: c in labelEncoders
      ensures r.Ok? <==> old(isTrained) && daysAhead >= 1 && currentDate + daysAhead <= MaxOrdinal &&
                         EncodersAccept(old(labelEncoders), FromRecords(FutureRows(modelType, currentDate, daysAhead, noise))) &&
                         regressor.Fitted? && regressor.featureNames == featureColumns &&
                         forall i | 0 <= i < daysAhead ::
                           Numeric(FeatureVector(labelEncoders, featureColumns, FutureRows(modelType, currentDate, daysAhead, noise)[i]))
      ensures r.Ok? ==> |r.value.dates| == daysAhead && |r.value.prices| == daysAhead
      ensures r.Ok? ==> forall i | 0 <= i < daysAhead :: r.value.dates[i] == currentDate + i + 1
      ensures r.Ok? ==> regressor.Fitted? && regressor.featureNames == featureColumns
      ensures r.Ok? ==> PredictedFrom(regressor, labelEncoders, featureColumns,
                                      FutureRows(modelType, currentDate, daysAhead, noise), r.value.prices)
    {
      var data := FutureData(modelType, currentDate, daysAhead, noise);
      if data.Err? {
        return Err(data.error);
      }
      var futureDates, futureData := data.value.0, data.value.1;
      var predictions := PredictRecords(futureData);
      SameRecords(old(labelEncoders), labelEncoders, futureData, FutureRows(modelType, currentDate, daysAhead, noise));
      if predictions.Err? {
        return Err(predictions.error);
      }
      SamePredictions(regressor, labelEncoders, featureColumns, futureData, FutureRows(modelType, currentDate, daysAhead, noise), predictions.value);
      assert futureData != [] && |futureDates| == |futureData| == |predictions.value| == daysAhead;
      FromUniformRecords(futureData, FutureKeys);
      r := Ok(Trend(futureDates, predictions.value));
    }

    /** `save_model`, without the file: the five fields it writes. */
    method SaveModel() returns (data: ModelData)
      ensures data.model == regressor && data.labelEncoders == labelEncoders && data.featureColumns == featureColumns
      ensures data.modelType == modelType && data.isTrained == isTrained
    {
      data := ModelData(regressor, labelEncoders, featureColumns, modelType, isTrained);
    }

    /** `load_model`, without the file: replaces the five fields. */
    method LoadModel(data: ModelData)
      modifies this
      ensures regressor == data.model && labelEncoders == data.labelEncoders && featureColumns == data.featureColumns
      ensures modelType == data.modelType && isTrained == data.isTrained
    {
      regressor := data.model;
      labelEncoders := data.labelEncoders;
      featureColumns := data.featureColumns;
      modelType := data.modelType;
      isTrained := data.isTrained;
    }
  }

  /** The prepared columns once the first `k` categorical columns are encoded. */
  function PreparedColumnsUpTo(k: nat, columns: set<string>): set<string>
    requires k <= |CategoricalColumns|
  {
    if k == 0 then (if "date" in columns then columns + DateFeatureColumns else columns)
    else
      var col := CategoricalColumns[k - 1];
      PreparedColumnsUpTo(k - 1, columns) + (if col in columns then {col + "_encoded"} else {})
  }

  lemma PreparedColumnsComplete(columns: set<string>)
    ensures PreparedColumnsUpTo(|CategoricalColumns|, columns) == PreparedColumns(columns)
  {
    assert CategoricalColumns[0] == "day_of_week" && CategoricalColumns[1] == "season";
    assert CategoricalColumns[0] + "_encoded" == "day_of_week_encoded";
    assert CategoricalColumns[1] + "_encoded" == "season_encoded";
    assert PreparedColumnsUpTo(1, columns) ==
      PreparedColumnsUpTo(0, columns) + (if "day_of_week" in columns then {"day_of_week_encoded"} else {});
  }

  /** The frame after the date columns are derived. */
  function DateFeatureFrame(df: Frame): (data: Frame)
    requires WellFormed(df)
    ensures StepInvariant(0, map[], df, data)
  {
    var rows := seq(|df.rows|, i requires 0 <= i < |df.rows| => DateFeatures(df.rows[i]));
    var data := Frame(PreparedColumnsUpTo(0, df.columns), rows);
    assert forall i | 0 <= i < |df.rows| :: rows[i].Keys == data.columns by {
      forall i | 0 <= i < |df.rows| ensures rows[i].Keys == data.columns {
        DateFeaturesKeep(df.rows[i]);
      }
    }
    data
  }

  /** Deriving the date columns adds them and keeps every other column. */
  lemma DateFeaturesKeep(row: Row)
    ensures DateFeatures(row).Keys == if "date" in row then row.Keys + DateFeatureColumns else row.Keys
    ensures forall c | c in row && c !in DateFeatureColumns :: DateFeatures(row)[c] == row[c]
  {
  }

  /**
   * For a row dated `d`, the derived 'year', 'month' and 'day' name that calendar date,
   * 'day_of_year' runs from 1 to the length of its year and 'week_of_year' is an ISO week.
   */
  lemma DateFeatureValues(row: Row, d: Date)
    requires "date" in row && row["date"] == When(d)
    ensures var f, ymd := DateFeatures(row), ToYmd(d);
            && IsDateOf(ymd, d)
            && f["year"] == Num(ymd.year as real) && f["month"] == Num(ymd.month as real)
            && f["day"] == Num(ymd.day as real)
            && f["day_of_year"] == Num(DayOfYear(d) as real) && 1 <= DayOfYear(d) <= YearLength(ymd.year)
            && f["week_of_year"] == Num(IsoWeek(d) as real) && 1 <= IsoWeek(d) <= 53
  {
    ToYmdIsCalendarDate(d);
    DayOfYearInYear(d);
    IsoWeekRange(d);
  }

  /** What holds of the frame inside `prepare_features` after `k` categorical columns. */
  predicate StepInvariant(k: nat, encoders: map<string, Encoder>, df: Frame, data: Frame)
    requires k <= |CategoricalColumns|
  {
    && WellFormed(df) && WellFormed(data) && |data.rows| == |df.rows|
    && data.columns == PreparedColumnsUpTo(k, df.columns)
    && forall i | 0 <= i < |df.rows| :: data.rows[i] == EncodeFirst(k, encoders, DateFeatures(df.rows[i]))
  }

  /** Adding the encoder of a later categorical column does not change the first `k` encoded columns. */
  lemma EncodeFirstIgnoresLaterColumns(k: nat, e1: map<string, Encoder>, e2: map<string, Encoder>, df: Frame)
    requires k < |CategoricalColumns| && WellFormed(df)
    requires forall c | c in e1 :: c in e2 && e2[c] == e1[c]
    requires forall c | c in e2 && c !in e1 :: c == CategoricalColumns[k]
    ensures forall i | 0 <= i < |df.rows| :: EncodeFirst(k, e1, DateFeatures(df.rows[i])) == EncodeFirst(k, e2, DateFeatures(df.rows[i]))
  {
    forall i | 0 <= i < |df.rows| ensures EncodeFirst(k, e1, DateFeatures(df.rows[i])) == EncodeFirst(k, e2, DateFeatures(df.rows[i])) {
      EncodeFirstAgree(k, e1, e2, DateFeatures(df.rows[i]));
    }
  }

  lemma {:induction false} EncodeFirstAgree(k: nat, e1: map<string, Encoder>, e2: map<string, Encoder>, row: Row)
    requires k <= |CategoricalColumns|
    requires forall c | c in CategoricalColumns[..k] :: (c in e1 <==> c in e2) && (c in e1 ==> e1[c] == e2[c])
    ensures EncodeFirst(k, e1, row) == EncodeFirst(k, e2, row)
  {
    if k > 0 {
      assert CategoricalColumns[..k - 1] <= CategoricalColumns[..k];
      EncodeFirstAgree(k - 1, e1, e2, row);
      assert CategoricalColumns[k - 1] in CategoricalColumns[..k];
    }
  }

  /** One pass of the encoding loop for a column the frame has. */
  function EncodeStep(k: nat, encoders: map<string, Encoder>, df: Frame, data: Frame, codes: seq<nat>): (data': Frame)
    requires k < |CategoricalColumns| && StepInvariant(k, encoders, df, data)
    requires CategoricalColumns[k] in df.columns && CategoricalColumns[k] in encoders
    requires EncodeColumn(CategoricalColumns[k], encoders[CategoricalColumns[k]], Column(df, CategoricalColumns[k])) == Ok(codes)
    ensures StepInvariant(k + 1, encoders, df, data')
  {
    var col := CategoricalColumns[k];
    var e := encoders[col];
    var column := Column(df, col);
    var encoded := seq(|codes|, i requires 0 <= i < |codes| => Num(codes[i] as real));
    var data' := WithColumn(data, col + "_encoded", encoded);
    forall i | 0 <= i < |df.rows|
      ensures data'.rows[i] == EncodeFirst(k + 1, encoders, DateFeatures(df.rows[i]))
    {
      FallbackCodes(col, e, column, i);
      EncodeStepRow(k, encoders, df.rows[i]);
    }
    data'
  }

  /** Encoding one more categorical column of a row adds its `_encoded` cell. */
  lemma EncodeStepRow(k: nat, encoders: map<string, Encoder>, row: Row)
    requires k < |CategoricalColumns|
    requires CategoricalColumns[k] in row && CategoricalColumns[k] in encoders
    ensures var col := CategoricalColumns[k];
            EncodeFirst(k + 1, encoders, DateFeatures(row))
            == EncodeFirst(k, encoders, DateFeatures(row))[col + "_encoded" := EncodeCell(encoders[col], row[col])]
  {
    DateFeaturesKeep(row);
  }

  /** A pass of the encoding loop for a column the frame lacks changes nothing. */
  lemma SkipStep(k: nat, encoders: map<string, Encoder>, df: Frame, data: Frame)
    requires k < |CategoricalColumns| && StepInvariant(k, encoders, df, data)
    requires CategoricalColumns[k] !in df.columns
    ensures StepInvariant(k + 1, encoders, df, data)
  {
    forall i | 0 <= i < |df.rows|
      ensures data.rows[i] == EncodeFirst(k + 1, encoders, DateFeatures(df.rows[i]))
    {
      DateFeaturesKeep(df.rows[i]);
    }
  }

  /** A frame built from no records has no columns, so it needs no encoder and selects no feature. */
  lemma EmptyFrame(modelType: string, encoders: map<string, Encoder>)
    ensures EncodersAccept(encoders, FromRecords([]))
    ensures FeatureColumns(modelType, PreparedColumns(FromRecords([]).columns)) == []
  {
    assert FromRecords([]).columns == {};
    assert PreparedColumns({}) == {};
    PresentInNothing(WantedFeatures(modelType, {}));
  }

  lemma {:induction false} PresentInNothing(names: seq<string>)
    ensures Present(names, {}) == []
  {
    if names != [] {
      PresentInNothing(names[1..]);
    }
  }

  /** Saving one model and loading the artifact into another reproduces every field. */
  method SaveThenLoad(source: PriceForecastingModel, target: PriceForecastingModel)
    modifies target
    ensures target.regressor == old(source.regressor) && target.labelEncoders == old(source.labelEncoders)
    ensures target.featureColumns == old(source.featureColumns) && target.modelType == old(source.modelType)
    ensures target.isTrained == old(source.isTrained)
  {
    var data := source.SaveModel();
    target.LoadModel(data);
  }
}
