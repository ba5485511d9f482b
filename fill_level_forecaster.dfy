/** The fill-level forecaster: it prepares the readings of one bin, trains
    regression models (linear, decision tree, random forest) and optionally
    an ARIMA model, predicts the fill level hour by hour, ranks feature
    importances and recommends one of the trained models.

    The learning library is foreign: fitting, prediction and evaluation are
    the fields of `Learners`, and the floating-point pieces of data
    preparation those of `Numerics`. Saved model files are the contents of a
    `ModelDirectory`. */
module FillLevelForecasting {
  import opened Common
  import opened DataPreprocessor

  // ---------------------------------------------------------------------
  // Models, metrics and the foreign library

  /** A trained model: a regressor predicting from one feature row (with the
      importances of a tree-based one), or a fitted ARIMA model whose
      `forecast(i)` is the forecast `i` steps ahead. */
  datatype Model =
    | Regressor(predict: Row -> real, importances: Option<seq<real>>)
    | Arima(forecast: nat -> real)

  /** The metrics of one model, or the error recorded instead. */
  datatype Metrics =
    | Scores(rmse: real, mae: real, r2: real, accuracy: real)
    | Failed(error: string)

  /** The outcome of fitting ARIMA, which may raise. */
  datatype ArimaFit = ArimaFitted(forecast: nat -> real) | ArimaRaised(message: string)

  /** The floating-point parts of data preparation. */
  datatype Numerics = Numerics(
    fillGap: (seq<Cell>, nat) -> real,
    quantile: (seq<Cell>, real) -> real,
    sinTurn: real -> real,
    cosTurn: real -> real,
    std: seq<real> -> real)

  /** The learning library: fitting a regressor of a kind, the importances
      of a fitted tree-based regressor, fitting ARIMA, and the RMSE, MAE, R²
      and 5%-accuracy of predictions against the truth. */
  datatype Learners = Learners(
    fit: (string, Frame, seq<Cell>) -> (Row -> real),
    importancesOf: (string, Frame, seq<Cell>) -> seq<real>,
    fitArima: seq<Cell> -> ArimaFit,
    evaluate: (seq<Cell>, seq<real>) -> (real, real, real, real))

  const Linear := "linear"
  const Tree := "tree"
  const Forest := "forest"
  const ArimaKind := "arima"

  /** The kinds that are saved to and loaded from the model directory. */
  const SavedKinds := [Linear, Tree, Forest]

  const DefaultLags: seq<nat> := [1, 2, 3, 6, 12]
  const DefaultWindows: seq<nat> := [6, 12, 24]
  const TestSize := 0.2
  const MinPreparedRows := 10
  const MinTrainingRows := 5
  const MinArimaPoints := 20

  const InsufficientTraining := "Insufficient data for training"
  const InsufficientTrainingRows := "Insufficient training data"
  const InsufficientArima := "Insufficient data for ARIMA"
  const InsufficientPrediction := "Insufficient data for prediction"

  function NotTrained(modelType: string): string {
    "Model " + modelType + " not trained"
  }

  // ---------------------------------------------------------------------
  // Data preparation

  /** `prepare_data`: cleaning, then (for a non-empty frame) time, lag,
      rolling, rate and metadata features and a final `dropna`. */
  function PrepareData(readings: seq<SensorReading>, info: BinInfo, num: Numerics): (f: Frame)
    ensures WellFormed(f)
    ensures !Empty(f) ==> FillLevelCol in f.columns && TimestampCol in f.columns
    ensures forall i :: 0 <= i < |f.rows| ==> Complete(f.rows[i])
  {
    var df := CleanedReadings(readings, num.fillGap, num.quantile);
    if Empty(df) then df
    else
      var m := Features(df, info, num);
      DropNaWellFormed(m);
      DropNa(m)
  }

  /** The feature steps of `prepare_data` between cleaning and `dropna`:
      each keeps the columns it is given, so the level and the timestamp
      survive to the end. */
  function Features(df: Frame, info: BinInfo, num: Numerics): (m: Frame)
    requires WellFormed(df) && FillLevelCol in df.columns && TimestampCol in df.columns
    ensures WellFormed(m) && FillLevelCol in m.columns && TimestampCol in m.columns
  {
    var t := TimeFeatures(df, num.sinTurn, num.cosTurn);
    var l := LagFeatures(t, FillLevelCol, DefaultLags);
    var r := RollingFeatures(l, FillLevelCol, DefaultWindows, num.std);
    BinMetadata(RateFeatures(r, FillLevelCol), info)
  }

  // ---------------------------------------------------------------------
  // Training

  /** `_evaluate_model`: predictions are clipped to 0..100 first, and the
      metrics rounded to two places (R² to four). */
  function Evaluate(ln: Learners, truth: seq<Cell>, predictions: seq<real>): (m: Metrics)
    ensures m.Scores?
  {
    var s := ln.evaluate(truth, seq(|predictions|, i requires 0 <= i < |predictions| => Clamp(predictions[i])));
    Scores(Round2(s.0), Round2(s.1), Round4(s.2), Round2(s.3))
  }

  /** Fits a regressor of the given kind on the training part and scores it
      on the test part; only the tree-based kinds have importances. */
  function FitRegressor(kind: string, split: Split, ln: Learners): (result: (Model, Metrics))
    ensures result.0.Regressor? && result.1.Scores?
    ensures result.0.importances.Some? <==> kind != Linear
  {
    var predict := ln.fit(kind, split.xTrain, split.yTrain);
    var importances := if kind == Linear then None else Some(ln.importancesOf(kind, split.xTrain, split.yTrain));
    var xTest := split.xTest.rows;
    (Regressor(predict, importances),
     Evaluate(ln, split.yTest, seq(|xTest|, i requires 0 <= i < |xTest| => predict(xTest[i]))))
  }

  /** `_train_arima` on the fill-level series, with the exception that
      `train_models` catches turned into an error entry: fewer than 20
      points is an error; otherwise the first 80% fit the model and the
      rest test it. */
  function ArimaTraining(series: seq<Cell>, ln: Learners): (result: (Metrics, Option<Model>))
    ensures result.1.Some? ==> result.1.value.Arima? && result.0.Scores?
    ensures |series| < MinArimaPoints ==> result == (Failed(InsufficientArima), None)
  {
    if |series| < MinArimaPoints then (Failed(InsufficientArima), None)
    else
      var k := SplitIndex(|series|, TestSize);
      match ln.fitArima(series[..k])
      case ArimaRaised(e) => (Failed(e), None)
      case ArimaFitted(forecast) =>
        (Evaluate(ln, series[k..], seq(|series| - k, i requires 0 <= i => forecast(i + 1))), Some(Arima(forecast)))
  }

  /** The ARIMA split keeps at least 16 points for fitting and 4 for
      testing. */
  lemma ArimaSplitSizes(n: nat)
    requires n >= MinArimaPoints
    ensures SplitIndex(n, TestSize) >= 16 && n - SplitIndex(n, TestSize) >= 4
  {
    var k := SplitIndex(n, TestSize);
    assert (n as real) * (1.0 - TestSize) >= 16.0;
    assert k as real > (n as real) * 0.8 - 1.0;
    assert (k as real) <= (n as real) * 0.8;
  }

  /** On a prepared frame of at least ten rows the split always exists and
      leaves at least eight training rows, so the check of `train_models`
      for fewer than five never fires. */
  lemma TrainingSplitIsLargeEnough(df: Frame)
    requires WellFormed(df) && FillLevelCol in df.columns && |df.rows| >= MinPreparedRows
    ensures CreateTrainTestSplit(df, FillLevelCol, TestSize).Some?
    ensures |CreateTrainTestSplit(df, FillLevelCol, TestSize).value.xTrain.rows| >= 8 > MinTrainingRows
  {
    TrainTestSplitPartition(df, FillLevelCol, TestSize);
    TrainingShareOfTenRows(|df.rows|);
  }

  /** `train_models` trains kind `k`. */
  predicate Trains(k: string, modelTypes: seq<string>, arimaAvailable: bool) {
    if k == ArimaKind then ArimaKind in modelTypes && arimaAvailable else k in SavedKinds && k in modelTypes
  }

  /** The kinds `train_models` reports, in its order: those requested, with
      ARIMA only when the library is available. */
  function TrainedKinds(modelTypes: seq<string>, arimaAvailable: bool): (kinds: seq<string>)
    ensures forall k :: k in kinds <==> Trains(k, modelTypes, arimaAvailable)
  {
    (if Linear in modelTypes then [Linear] else [])
    + (if Tree in modelTypes then [Tree] else [])
    + (if Forest in modelTypes then [Forest] else [])
    + (if ArimaKind in modelTypes && arimaAvailable then [ArimaKind] else [])
  }

  function Names(entries: seq<(string, Metrics)>): (names: seq<string>)
    ensures |names| == |entries|
  {
    seq(|entries|, i requires 0 <= i < |entries| => entries[i].0)
  }

  lemma NamesAppend(a: seq<(string, Metrics)>, b: seq<(string, Metrics)>)
    ensures Names(a + b) == Names(a) + Names(b)
  {
  }

  datatype TrainOutcome = TrainError(message: string) | Trained(results: seq<(string, Metrics)>)

  /** The metrics reported for one kind: ARIMA's from its own fit, the
      others' from fitting a regressor on the split. */
  function MetricsFor(kind: string, split: Split, series: seq<Cell>, ln: Learners): Metrics {
    if kind == ArimaKind then ArimaTraining(series, ln).0 else FitRegressor(kind, split, ln).1
  }

  /** Every entry carries the metrics of its kind. */
  predicate Measured(entries: seq<(string, Metrics)>, split: Split, series: seq<Cell>, ln: Learners) {
    forall i :: 0 <= i < |entries| ==> entries[i].1 == MetricsFor(entries[i].0, split, series, ln)
  }

  lemma MeasuredAppend(a: seq<(string, Metrics)>, b: seq<(string, Metrics)>, split: Split, series: seq<Cell>, ln: Learners)
    requires Measured(a, split, series, ln) && Measured(b, split, series, ln)
    ensures Measured(a + b, split, series, ln)
  {
    forall i | 0 <= i < |a + b| ensures (a + b)[i].1 == MetricsFor((a + b)[i].0, split, series, ln) {
      if i >= |a| {
        assert (a + b)[i] == b[i - |a|];
      }
    }
  }

  /** The entry for one kind, present when the kind is trained. */
  function EntryIf(trained: bool, kind: string, split: Split, series: seq<Cell>, ln: Learners): (e: seq<(string, Metrics)>)
    ensures Names(e) == if trained then [kind] else []
    ensures Measured(e, split, series, ln)
  {
    if trained then [(kind, MetricsFor(kind, split, series, ln))] else []
  }

  /** The metrics `train_models` reports once it has a split: linear, tree
      and forest as requested, each fitted on the training part and scored
      on the test part, then ARIMA on the whole fill-level series. */
  function TrainingResults(split: Split, series: seq<Cell>, ln: Learners, modelTypes: seq<string>, arimaAvailable: bool)
    : (results: seq<(string, Metrics)>)
    ensures Names(results) == TrainedKinds(modelTypes, arimaAvailable)
    ensures Measured(results, split, series, ln)
  {
    var linear := EntryIf(Linear in modelTypes, Linear, split, series, ln);
    var tree := EntryIf(Tree in modelTypes, Tree, split, series, ln);
    var forest := EntryIf(Forest in modelTypes, Forest, split, series, ln);
    var arima := EntryIf(ArimaKind in modelTypes && arimaAvailable, ArimaKind, split, series, ln);
    NamesAppend(linear, tree);
    NamesAppend(linear + tree, forest);
    NamesAppend(linear + tree + forest, arima);
    MeasuredAppend(linear, tree, split, series, ln);
    MeasuredAppend(linear + tree, forest, split, series, ln);
    MeasuredAppend(linear + tree + forest, arima, split, series, ln);
    linear + tree + forest + arima
  }

  /** The models in memory after `train_models`: each requested regressor
      is replaced by the newly fitted one, and ARIMA only when it fitted; a
      failed ARIMA fit keeps the model there was. */
  function TrainedModels(models: map<string, Model>, split: Split, series: seq<Cell>, ln: Learners,
                         modelTypes: seq<string>, arimaAvailable: bool): (trained: map<string, Model>)
    ensures forall k :: k in trained <==>
              k in models || (Trains(k, modelTypes, arimaAvailable) && (k != ArimaKind || ArimaTraining(series, ln).1.Some?))
    ensures forall k :: k in trained ==>
              trained[k] == if k != ArimaKind && Trains(k, modelTypes, arimaAvailable) then FitRegressor(k, split, ln).0
                            else if k == ArimaKind && Trains(k, modelTypes, arimaAvailable) && ArimaTraining(series, ln).1.Some?
                            then ArimaTraining(series, ln).1.value
                            else models[k]
  {
    var m1 := if Linear in modelTypes then models[Linear := FitRegressor(Linear, split, ln).0] else models;
    var m2 := if Tree in modelTypes then m1[Tree := FitRegressor(Tree, split, ln).0] else m1;
    var m3 := if Forest in modelTypes then m2[Forest := FitRegressor(Forest, split, ln).0] else m2;
    var arima := ArimaTraining(series, ln).1;
    if ArimaKind in modelTypes && arimaAvailable && arima.Some? then m3[ArimaKind := arima.value] else m3
  }

  // ---------------------------------------------------------------------
  // Hourly prediction

  /** One entry of `hourly_predictions`. */
  datatype HourlyPrediction = HourlyPrediction(timestamp: Cell, predictedFillLevel: real)

  /** The result of a successful prediction. The current values are read
      from the prepared frame, so they are cells. */
  datatype Forecast = Forecast(
    binId: string,
    modelType: string,
    currentFillLevel: Cell,
    currentTime: Cell,
    predictedFillLevel: real,
    predictionTime: Cell,
    hoursUntilFull: Option<nat>,
    predictedFullTime: Option<Cell>,
    hourlyPredictions: seq<HourlyPrediction>)

  datatype PredictOutcome = PredictError(message: string) | Predicted(forecast: Forecast)

  /** `round(x, 2)`, with halves rounded up. */
  function Round2(x: real): (r: real)
    ensures 0.0 <= x <= 100.0 ==> 0.0 <= r <= 100.0
  {
    (x * 100.0 + 0.5).Floor as real / 100.0
  }

  /** `round(x, 2)` of a frame cell: a missing value stays missing. */
  function RoundCell(c: Cell): Cell {
    if c.Num? then Num(Round2(c.x)) else c
  }

  /** `t + timedelta(hours=h)`; a missing time stays missing. */
  function AddHours(t: Cell, h: nat): (r: Cell)
    ensures t.Stamp? ==> r == Stamp(t.seconds + SecondsPerHour * h)
  {
    if t.Stamp? then Stamp(t.seconds + SecondsPerHour * h) else Missing
  }

  /** The one-row frame of `_create_future_features` before copying: the
      time features of the future time and the bin metadata. */
  function FutureRow(t: Cell, info: BinInfo, num: Numerics): (row: Row)
    ensures TimestampCol in row
    ensures forall c :: c in MetadataNames(info) ==> c in row
  {
    var base := Frame([TimestampCol], [map[TimestampCol := t]]);
    var future := BinMetadata(TimeFeatures(base, num.sinTurn, num.cosTurn), info);
    future.rows[0]
  }

  /** The rest of `_create_future_features` and the filling and selection
      of the stored feature columns: every column of the last row that the
      future row lacks is copied (except the timestamp), and a feature
      column still absent is 0. */
  function FutureFeatures(future: Row, lastRow: Row, lastColumns: seq<string>, featureColumns: seq<string>): (features: Row)
    ensures forall c :: c in features <==> c in featureColumns
    ensures forall c :: c in featureColumns && c in future ==> features[c] == future[c]
    ensures forall c :: c in featureColumns && c !in future ==>
              features[c] == if c in lastColumns && c in lastRow && c != TimestampCol then lastRow[c] else Num(0.0)
  {
    var copied := map c | c in lastColumns && c in lastRow && c !in future && c != TimestampCol :: lastRow[c];
    var complete := future + copied;
    map c | c in featureColumns :: if c in complete then complete[c] else Num(0.0)
  }

  /** The loop of `predict` from hour `hour` on, given the future row of
      each time: each hour predicts from the future features, clips to
      0..100 and rounds, then writes the clipped value and the time into
      the last row. */
  function HourlyFrom(predict: Row -> real, futureRow: Cell -> Row, lastRow: Row, lastColumns: seq<string>, t0: Cell,
                      featureColumns: seq<string>, hour: nat, hoursAhead: nat): (hourly: seq<HourlyPrediction>)
    requires hour >= 1
    ensures |hourly| == if hour <= hoursAhead then hoursAhead - hour + 1 else 0
    ensures forall i :: 0 <= i < |hourly| ==>
              hourly[i].timestamp == AddHours(t0, hour + i) && 0.0 <= hourly[i].predictedFillLevel <= 100.0
    decreases hoursAhead + 1 - hour
  {
    if hour > hoursAhead then []
    else
      var t := AddHours(t0, hour);
      var p := Clamp(predict(FutureFeatures(futureRow(t), lastRow, lastColumns, featureColumns)));
      var rest := HourlyFrom(predict, futureRow, lastRow[FillLevelCol := Num(p)][TimestampCol := t], lastColumns, t0,
                             featureColumns, hour + 1, hoursAhead);
      var hourly := [HourlyPrediction(t, Round2(p))] + rest;
      assert 0.0 <= hourly[0].predictedFillLevel <= 100.0;
      assert forall i :: 1 <= i < |hourly| ==> hourly[i] == rest[i - 1] && hour + i == (hour + 1) + (i - 1);
      hourly
  }

  /** Writing the fill level and the time into the last row does not change
      the features when the fill level is not a feature column: it is
      removed by the selection, and the time is never copied. */
  lemma FutureFeaturesIgnoreLastFill(future: Row, lastRow: Row, lastColumns: seq<string>, featureColumns: seq<string>,
                                     v: Cell, t: Cell)
    requires FillLevelCol !in featureColumns
    ensures FutureFeatures(future, lastRow[FillLevelCol := v][TimestampCol := t], lastColumns, featureColumns)
         == FutureFeatures(future, lastRow, lastColumns, featureColumns)
  {
    var updated := lastRow[FillLevelCol := v][TimestampCol := t];
    forall c | c in featureColumns && c != TimestampCol
      ensures (c in updated) == (c in lastRow) && (c in updated ==> updated[c] == lastRow[c])
    {
      assert c != FillLevelCol;
    }
  }

  /** One hour of the loop of `predict`. */
  lemma HourlyFromStep(predict: Row -> real, futureRow: Cell -> Row, row: Row, lastColumns: seq<string>, t0: Cell,
                       featureColumns: seq<string>, hour: nat, hoursAhead: nat)
    requires 1 <= hour <= hoursAhead
    ensures var t := AddHours(t0, hour);
            var p := Clamp(predict(FutureFeatures(futureRow(t), row, lastColumns, featureColumns)));
            HourlyFrom(predict, futureRow, row, lastColumns, t0, featureColumns, hour, hoursAhead)
              == [HourlyPrediction(t, Round2(p))]
                 + HourlyFrom(predict, futureRow, row[FillLevelCol := Num(p)][TimestampCol := t], lastColumns, t0,
                              featureColumns, hour + 1, hoursAhead)
  {
  }

  /** The last row after one hour of the loop: the predicted level and the
      time written in. */
  function NextLastRow(predict: Row -> real, futureRow: Cell -> Row, row: Row, lastColumns: seq<string>, t0: Cell,
                       featureColumns: seq<string>, hour: nat): Row
  {
    var t := AddHours(t0, hour);
    row[FillLevelCol := Num(Clamp(predict(FutureFeatures(futureRow(t), row, lastColumns, featureColumns))))][TimestampCol := t]
  }

  /** The first hour of the loop predicts from the current last row. */
  lemma HourlyHead(predict: Row -> real, futureRow: Cell -> Row, row: Row, lastColumns: seq<string>, t0: Cell,
                   featureColumns: seq<string>, hour: nat, hoursAhead: nat)
    requires 1 <= hour <= hoursAhead
    ensures HourlyFrom(predict, futureRow, row, lastColumns, t0, featureColumns, hour, hoursAhead)[0].predictedFillLevel
         == Round2(Clamp(predict(FutureFeatures(futureRow(AddHours(t0, hour)), row, lastColumns, featureColumns))))
  {
    HourlyFromStep(predict, futureRow, row, lastColumns, t0, featureColumns, hour, hoursAhead);
  }

  /** The later hours of the loop are the loop from the next hour on, with
      the updated last row. */
  lemma HourlyTail(predict: Row -> real, futureRow: Cell -> Row, row: Row, lastColumns: seq<string>, t0: Cell,
                   featureColumns: seq<string>, hour: nat, hoursAhead: nat, i: nat)
    requires 1 <= hour && 0 < i < |HourlyFrom(predict, futureRow, row, lastColumns, t0, featureColumns, hour, hoursAhead)|
    ensures i - 1 < |HourlyFrom(predict, futureRow, NextLastRow(predict, futureRow, row, lastColumns, t0, featureColumns, hour),
                                lastColumns, t0, featureColumns, hour + 1, hoursAhead)|
    ensures HourlyFrom(predict, futureRow, row, lastColumns, t0, featureColumns, hour, hoursAhead)[i]
         == HourlyFrom(predict, futureRow, NextLastRow(predict, futureRow, row, lastColumns, t0, featureColumns, hour),
                       lastColumns, t0, featureColumns, hour + 1, hoursAhead)[i - 1]
  {
    HourlyFromStep(predict, futureRow, row, lastColumns, t0, featureColumns, hour, hoursAhead);
  }

  /** The predictions never see the predicted fill levels: hour `hour + i`
      is the clipped, rounded prediction for the features of the original
      last row at that time. */
  lemma {:induction false} HourlyIgnoresPredictedFill(predict: Row -> real, futureRow: Cell -> Row, lastRow: Row,
                                                      lastColumns: seq<string>, t0: Cell, featureColumns: seq<string>,
                                                      hour: nat, hoursAhead: nat, i: nat)
    requires hour >= 1 && FillLevelCol !in featureColumns
    requires i < |HourlyFrom(predict, futureRow, lastRow, lastColumns, t0, featureColumns, hour, hoursAhead)|
    ensures HourlyFrom(predict, futureRow, lastRow, lastColumns, t0, featureColumns, hour, hoursAhead)[i].predictedFillLevel
         == Round2(Clamp(predict(FutureFeatures(futureRow(AddHours(t0, hour + i)), lastRow, lastColumns, featureColumns))))
    decreases hoursAhead + 1 - hour
  {
    if i == 0 {
      HourlyHead(predict, futureRow, lastRow, lastColumns, t0, featureColumns, hour, hoursAhead);
    } else {
      var next := NextLastRow(predict, futureRow, lastRow, lastColumns, t0, featureColumns, hour);
      HourlyTail(predict, futureRow, lastRow, lastColumns, t0, featureColumns, hour, hoursAhead, i);
      HourlyIgnoresPredictedFill(predict, futureRow, next, lastColumns, t0, featureColumns, hour + 1, hoursAhead, i - 1);
      var future := futureRow(AddHours(t0, hour + i));
      assert AddHours(t0, hour + 1 + (i - 1)) == AddHours(t0, hour + i);
      NextRowSameFeatures(predict, futureRow, lastRow, lastColumns, t0, featureColumns, hour, future);
      calc {
        HourlyFrom(predict, futureRow, lastRow, lastColumns, t0, featureColumns, hour, hoursAhead)[i].predictedFillLevel;
        HourlyFrom(predict, futureRow, next, lastColumns, t0, featureColumns, hour + 1, hoursAhead)[i - 1].predictedFillLevel;
        Round2(Clamp(predict(FutureFeatures(future, next, lastColumns, featureColumns))));
        Round2(Clamp(predict(FutureFeatures(future, lastRow, lastColumns, featureColumns))));
      }
    }
  }

  /** The updated last row gives the same features as the original one. */
  lemma NextRowSameFeatures(predict: Row -> real, futureRow: Cell -> Row, row: Row, lastColumns: seq<string>, t0: Cell,
                            featureColumns: seq<string>, hour: nat, future: Row)
    requires FillLevelCol !in featureColumns
    ensures FutureFeatures(future, NextLastRow(predict, futureRow, row, lastColumns, t0, featureColumns, hour), lastColumns, featureColumns)
         == FutureFeatures(future, row, lastColumns, featureColumns)
  {
    var t := AddHours(t0, hour);
    FutureFeaturesIgnoreLastFill(future, row, lastColumns, featureColumns,
      Num(Clamp(predict(FutureFeatures(futureRow(t), row, lastColumns, featureColumns)))), t);
  }

  /** The ARIMA horizon: the clipped and rounded forecasts one to
      `hoursAhead` steps ahead, an hour apart. */
  function ArimaHourly(forecast: nat -> real, t0: Cell, hoursAhead: nat): (hourly: seq<HourlyPrediction>)
    ensures |hourly| == hoursAhead
    ensures forall i :: 0 <= i < hoursAhead ==>
              hourly[i].timestamp == AddHours(t0, i + 1) && 0.0 <= hourly[i].predictedFillLevel <= 100.0
  {
    var hourly := seq(hoursAhead, i requires 0 <= i < hoursAhead => HourlyPrediction(AddHours(t0, i + 1), Round2(Clamp(forecast(i + 1)))));
    assert forall i :: 0 <= i < hoursAhead ==> hourly[i].predictedFillLevel == Round2(Clamp(forecast(i + 1)));
    hourly
  }

  /** The first hour whose rounded prediction reaches 100, counted from 1,
      and its time. */
  predicate IsFirstFullHour(hourly: seq<HourlyPrediction>, hours: Option<nat>, time: Option<Cell>) {
    match hours
    case Some(h) =>
      && 1 <= h <= |hourly|
      && hourly[h - 1].predictedFillLevel >= 100.0
      && (forall j :: 0 <= j < h - 1 ==> hourly[j].predictedFillLevel < 100.0)
      && time == Some(hourly[h - 1].timestamp)
    case None =>
      && (forall j :: 0 <= j < |hourly| ==> hourly[j].predictedFillLevel < 100.0)
      && time.None?
  }

  /** The scan for the first full hour shared by `predict` and
      `_predict_arima`. */
  method FindFullHour(hourly: seq<HourlyPrediction>) returns (hours: Option<nat>, time: Option<Cell>)
    ensures IsFirstFullHour(hourly, hours, time)
  {
    hours, time := None, None;
    var i := 0;
    while i < |hourly|
      invariant 0 <= i <= |hourly|
      invariant forall j :: 0 <= j < i ==> hourly[j].predictedFillLevel < 100.0
    {
      if hourly[i].predictedFillLevel >= 100.0 {
        hours, time := Some(i + 1), Some(hourly[i].timestamp);
        return;
      }
      i := i + 1;
    }
  }

  // ---------------------------------------------------------------------
  // Feature importance

  datatype FeatureScore = FeatureScore(feature: string, importance: real)

  datatype ImportanceOutcome = ImportanceError(message: string) | Importances(modelType: string, features: seq<FeatureScore>)

  const TopFeatures := 15
  const OnlyTreeModels := "Feature importance only available for tree-based models"
  const NoImportances := "Model does not have feature importances"

  /** `round(x, 4)`, with halves rounded up. */
  function Round4(x: real): real {
    (x * 10000.0 + 0.5).Floor as real / 10000.0
  }

  /** `zip(feature_columns, importances)`: as long as the shorter list. */
  function ZipImportances(columns: seq<string>, importances: seq<real>): (scores: seq<FeatureScore>)
    ensures |scores| == if |columns| <= |importances| then |columns| else |importances|
    ensures forall i :: 0 <= i < |scores| ==> scores[i].feature == columns[i]
  {
    var n := if |columns| <= |importances| then |columns| else |importances|;
    seq(n, i requires 0 <= i < n => FeatureScore(columns[i], Round4(importances[i])))
  }

  function NegatedImportance(s: FeatureScore): real {
    -s.importance
  }

  /** `sorted(..., reverse=True)[:15]`: a stable sort by decreasing
      importance, cut to the first fifteen. */
  function TopImportances(scores: seq<FeatureScore>): (top: seq<FeatureScore>)
    ensures |top| == if |scores| <= TopFeatures then |scores| else TopFeatures
  {
    var sorted := SortBy(scores, NegatedImportance);
    sorted[..if |sorted| <= TopFeatures then |sorted| else TopFeatures]
  }

  /** The ranking is in decreasing importance, lists only given features,
      and leaves out only features ranked no higher than the last one
      listed. */
  lemma TopImportancesRanked(scores: seq<FeatureScore>)
    ensures var top := TopImportances(scores);
            && (forall i, j :: 0 <= i < j < |top| ==> top[i].importance >= top[j].importance)
            && multiset(top) <= multiset(scores)
            && (forall x :: x in multiset(scores) - multiset(top) ==> x.importance <= top[|top| - 1].importance)
  {
    var sorted := SortBy(scores, NegatedImportance);
    var top := TopImportances(scores);
    var k := |top|;
    SortBySorted(scores, NegatedImportance);
    assert top == sorted[..k];
    forall i, j | 0 <= i < j < k ensures top[i].importance >= top[j].importance {
      assert NegatedImportance(sorted[i]) <= NegatedImportance(sorted[j]);
    }
    assert multiset(sorted) == multiset(top) + multiset(sorted[k..]) by {
      assert sorted == top + sorted[k..];
    }
    forall x | x in multiset(scores) - multiset(top) ensures x.importance <= top[k - 1].importance {
      assert x in multiset(sorted[k..]);
      var j :| 0 <= j < |sorted[k..]| && sorted[k..][j] == x;
      assert NegatedImportance(sorted[k - 1]) <= NegatedImportance(sorted[k + j]);
    }
  }

  // ---------------------------------------------------------------------
  // Model comparison

  datatype Best = Best(model: string, value: Option<real>)

  datatype Comparison =
    | CompareError(message: string)
    | Compared(bestRmse: Best, bestMae: Best, bestR2: Best, recommended: Option<string>, allMetrics: seq<(string, Metrics)>)

  const NoMetrics := "No metrics to compare"

  /** `a` beats `b` in Python's `min` with a missing key counted as +∞: a
      later element replaces the current one only when strictly smaller. */
  predicate Beats(a: Option<real>, b: Option<real>) {
    a.Some? && (b.None? || a.value < b.value)
  }

  /** The position Python's `min` picks: the first smallest key. */
  function FirstMin(keys: seq<Option<real>>): (i: nat)
    requires |keys| > 0
    ensures i < |keys|
    ensures forall j :: 0 <= j < |keys| ==> !Beats(keys[j], keys[i])
    ensures forall j :: 0 <= j < i ==> Beats(keys[i], keys[j])
  {
    if |keys| == 1 then 0
    else
      var j := FirstMin(keys[1..]) + 1;
      assert forall m :: 1 <= m < |keys| ==> keys[m] == keys[1..][m - 1];
      if Beats(keys[j], keys[0]) then j else 0
  }

  function Negated(k: Option<real>): Option<real> {
    if k.Some? then Some(-k.value) else None
  }

  /** `get('rmse')`, `get('mae')` and `get('r2_score')`: absent for a model
      whose training failed. */
  function RmseKey(m: Metrics): Option<real> {
    if m.Scores? then Some(m.rmse) else None
  }

  function MaeKey(m: Metrics): Option<real> {
    if m.Scores? then Some(m.mae) else None
  }

  function R2Key(m: Metrics): Option<real> {
    if m.Scores? then Some(m.r2) else None
  }

  /** The key of each entry, in order. */
  function KeysOf(metrics: seq<(string, Metrics)>, key: Metrics -> Option<real>): (keys: seq<Option<real>>)
    ensures |keys| == |metrics|
    ensures forall i :: 0 <= i < |metrics| ==> keys[i] == key(metrics[i].1)
  {
    var keys := seq(|metrics|, i requires 0 <= i < |metrics| => key(metrics[i].1));
    assert forall i :: 0 <= i < |metrics| ==> keys[i] == key(metrics[i].1);
    keys
  }

  /** An RMSE is a root of a mean of squares. */
  predicate NonNegativeRmse(metrics: seq<(string, Metrics)>) {
    forall i :: 0 <= i < |metrics| && metrics[i].1.Scores? ==> metrics[i].1.rmse >= 0.0
  }

  /** The recommendation score: 1/(RMSE + 1) + R². */
  function Score(m: Metrics): real
    requires m.Scores? && m.rmse >= 0.0
  {
    1.0 / (m.rmse + 1.0) + m.r2
  }

  /** The `scores` dictionary: the score of each entry without an error,
      in order. */
  function ScoreEntries(metrics: seq<(string, Metrics)>): (scores: seq<(string, real)>)
    requires NonNegativeRmse(metrics)
    ensures |scores| <= |metrics|
    ensures scores == [] <==> forall i :: 0 <= i < |metrics| ==> metrics[i].1.Failed?
  {
    if metrics == [] then []
    else
      var n := |metrics| - 1;
      var init := ScoreEntries(metrics[..n]);
      assert forall i :: 0 <= i < n ==> metrics[..n][i] == metrics[i];
      if metrics[n].1.Scores? then init + [(metrics[n].0, Score(metrics[n].1))] else init
  }

  /** Every score belongs to an entry without an error. */
  lemma {:induction false} ScoreEntryIsScored(metrics: seq<(string, Metrics)>, k: nat)
    requires NonNegativeRmse(metrics) && k < |ScoreEntries(metrics)|
    ensures exists i :: 0 <= i < |metrics| && metrics[i].1.Scores? && ScoreEntries(metrics)[k] == (metrics[i].0, Score(metrics[i].1))
  {
    var n := |metrics| - 1;
    var init := ScoreEntries(metrics[..n]);
    assert forall i :: 0 <= i < n ==> metrics[..n][i] == metrics[i];
    if k < |init| {
      ScoreEntryIsScored(metrics[..n], k);
      var i :| 0 <= i < n && metrics[..n][i].1.Scores? && init[k] == (metrics[..n][i].0, Score(metrics[..n][i].1));
      assert ScoreEntries(metrics)[k] == init[k];
    } else {
      assert ScoreEntries(metrics)[k] == (metrics[n].0, Score(metrics[n].1));
    }
  }

  /** Every entry without an error has its score. */
  lemma {:induction false} ScoredEntryHasScore(metrics: seq<(string, Metrics)>, i: nat)
    requires NonNegativeRmse(metrics) && i < |metrics| && metrics[i].1.Scores?
    ensures exists k :: 0 <= k < |ScoreEntries(metrics)| && ScoreEntries(metrics)[k] == (metrics[i].0, Score(metrics[i].1))
  {
    var n := |metrics| - 1;
    var init := ScoreEntries(metrics[..n]);
    assert forall j :: 0 <= j < n ==> metrics[..n][j] == metrics[j];
    if i < n {
      ScoredEntryHasScore(metrics[..n], i);
      var k :| 0 <= k < |init| && init[k] == (metrics[i].0, Score(metrics[i].1));
      assert ScoreEntries(metrics)[k] == init[k];
    } else {
      assert ScoreEntries(metrics)[|init|] == (metrics[n].0, Score(metrics[n].1));
    }
  }

  /** The loop of `compare_models` that fills `scores`. */
  method ScoreModels(metrics: seq<(string, Metrics)>) returns (scores: seq<(string, real)>)
    requires NonNegativeRmse(metrics)
    ensures scores == ScoreEntries(metrics)
  {
    scores := [];
    for i := 0 to |metrics|
      invariant scores == ScoreEntries(metrics[..i])
    {
      assert metrics[..i + 1][..i] == metrics[..i];
      if metrics[i].1.Scores? {
        scores := scores + [(metrics[i].0, Score(metrics[i].1))];
      }
    }
    assert metrics[..|metrics|] == metrics;
  }

  /** The model of the first highest score, if any. */
  function Recommended(scores: seq<(string, real)>): (r: Option<string>)
    ensures r.None? <==> scores == []
  {
    if scores == [] then None
    else
      var keys := seq(|scores|, k requires 0 <= k < |scores| => Some(-scores[k].1));
      Some(scores[FirstMin(keys)].0)
  }

  function BestBy(metrics: seq<(string, Metrics)>, keys: seq<Option<real>>, values: seq<Option<real>>): (b: Best)
    requires |metrics| == |keys| == |values| > 0
  {
    var i := FirstMin(keys);
    Best(metrics[i].0, values[i])
  }

  /** `compare_models`: the best model for each metric (a model with an
      error counts as the worst), and the recommendation, the highest score
      among the models without an error. */
  function CompareModels(metrics: seq<(string, Metrics)>): (c: Comparison)
    requires NonNegativeRmse(metrics)
    ensures metrics == [] <==> c == CompareError(NoMetrics)
  {
    if metrics == [] then CompareError(NoMetrics)
    else
      var rmse := KeysOf(metrics, RmseKey);
      var r2 := KeysOf(metrics, R2Key);
      var negatedR2 := seq(|r2|, i requires 0 <= i < |r2| => Negated(r2[i]));
      Compared(BestBy(metrics, rmse, rmse), BestBy(metrics, KeysOf(metrics, MaeKey), KeysOf(metrics, MaeKey)),
               BestBy(metrics, negatedR2, r2), Recommended(ScoreEntries(metrics)), metrics)
  }

  /** The recommendation is `None` exactly when every model failed;
      otherwise it names a model without an error whose score no other such
      model exceeds. */
  lemma RecommendationIsBestScore(metrics: seq<(string, Metrics)>)
    requires NonNegativeRmse(metrics) && metrics != []
    ensures CompareModels(metrics).Compared?
    ensures CompareModels(metrics).recommended.None? <==> forall i :: 0 <= i < |metrics| ==> metrics[i].1.Failed?
    ensures CompareModels(metrics).recommended.Some? ==>
              exists i :: 0 <= i < |metrics| && metrics[i].0 == CompareModels(metrics).recommended.value
                && metrics[i].1.Scores? && forall j :: 0 <= j < |metrics| && metrics[j].1.Scores? ==> Score(metrics[j].1) <= Score(metrics[i].1)
  {
    var scores := ScoreEntries(metrics);
    assert CompareModels(metrics).recommended == Recommended(scores);
    if scores != [] {
      var keys := seq(|scores|, k requires 0 <= k < |scores| => Some(-scores[k].1));
      var k := FirstMin(keys);
      ScoreEntryIsScored(metrics, k);
      var i :| 0 <= i < |metrics| && metrics[i].1.Scores? && scores[k] == (metrics[i].0, Score(metrics[i].1));
      forall j | 0 <= j < |metrics| && metrics[j].1.Scores? ensures Score(metrics[j].1) <= Score(metrics[i].1) {
        ScoredEntryHasScore(metrics, j);
        var m :| 0 <= m < |scores| && scores[m] == (metrics[j].0, Score(metrics[j].1));
        assert !Beats(keys[m], keys[k]);
      }
    }
  }

  /** The best RMSE names a model with the smallest RMSE, ahead of the
      models that failed; when all failed it is the first model, with no
      value. */
  lemma BestRmseIsSmallest(metrics: seq<(string, Metrics)>)
    requires NonNegativeRmse(metrics) && metrics != []
    ensures exists i :: 0 <= i < |metrics| && CompareModels(metrics).bestRmse == Best(metrics[i].0, RmseKey(metrics[i].1))
              && (metrics[i].1.Scores? ==>
                    forall j :: 0 <= j < |metrics| && metrics[j].1.Scores? ==> metrics[i].1.rmse <= metrics[j].1.rmse)
              && (metrics[i].1.Failed? ==> i == 0 && forall j :: 0 <= j < |metrics| ==> metrics[j].1.Failed?)
  {
    var rmse := KeysOf(metrics, RmseKey);
    var i := FirstMin(rmse);
    assert CompareModels(metrics).bestRmse == Best(metrics[i].0, RmseKey(metrics[i].1));
    forall j | 0 <= j < |metrics| && metrics[j].1.Scores? && metrics[i].1.Scores? ensures metrics[i].1.rmse <= metrics[j].1.rmse {
      assert !Beats(rmse[j], rmse[i]);
    }
    if metrics[i].1.Failed? {
      forall j | 0 <= j < |metrics| ensures metrics[j].1.Failed? {
        assert !Beats(rmse[j], rmse[i]);
      }
      assert !Beats(rmse[i], rmse[0]);
    }
  }

  /** The best R² names a model with the largest R², ahead of the models
      that failed. */
  lemma BestR2IsLargest(metrics: seq<(string, Metrics)>)
    requires NonNegativeRmse(metrics) && metrics != []
    ensures exists i :: 0 <= i < |metrics| && CompareModels(metrics).bestR2 == Best(metrics[i].0, R2Key(metrics[i].1))
              && (metrics[i].1.Scores? ==>
                    forall j :: 0 <= j < |metrics| && metrics[j].1.Scores? ==> metrics[j].1.r2 <= metrics[i].1.r2)
              && (metrics[i].1.Failed? ==> i == 0 && forall j :: 0 <= j < |metrics| ==> metrics[j].1.Failed?)
  {
    var r2 := KeysOf(metrics, R2Key);
    var negated := seq(|r2|, i requires 0 <= i < |r2| => Negated(r2[i]));
    var i := FirstMin(negated);
    assert CompareModels(metrics).bestR2 == Best(metrics[i].0, R2Key(metrics[i].1));
    forall j | 0 <= j < |metrics| && metrics[j].1.Scores? && metrics[i].1.Scores? ensures metrics[j].1.r2 <= metrics[i].1.r2 {
      assert !Beats(negated[j], negated[i]);
    }
    if metrics[i].1.Failed? {
      forall j | 0 <= j < |metrics| ensures metrics[j].1.Failed? {
        assert !Beats(negated[j], negated[i]);
      }
      assert !Beats(negated[i], negated[0]);
    }
  }

  // ---------------------------------------------------------------------
  // Loops of `predict`, `_predict_arima` and `get_feature_importance`

  /** The loop of `_predict_arima` over the clipped forecast. */
  method ArimaPredictions(forecast: nat -> real, t0: Cell, hoursAhead: nat) returns (hourly: seq<HourlyPrediction>)
    ensures hourly == ArimaHourly(forecast, t0, hoursAhead)
  {
    hourly := [];
    for i := 0 to hoursAhead
      invariant |hourly| == i
      invariant forall j :: 0 <= j < i ==> hourly[j] == HourlyPrediction(AddHours(t0, j + 1), Round2(Clamp(forecast(j + 1))))
    {
      hourly := hourly + [HourlyPrediction(AddHours(t0, i + 1), Round2(Clamp(forecast(i + 1))))];
    }
  }

  /** The loop of `get_feature_importance` that pairs each feature with its
      rounded importance. */
  method PairImportances(columns: seq<string>, importances: seq<real>) returns (scores: seq<FeatureScore>)
    ensures scores == ZipImportances(columns, importances)
  {
    scores := [];
    var n := if |columns| <= |importances| then |columns| else |importances|;
    for i := 0 to n
      invariant |scores| == i
      invariant forall j :: 0 <= j < i ==> scores[j] == FeatureScore(columns[j], Round4(importances[j]))
    {
      scores := scores + [FeatureScore(columns[i], Round4(importances[i]))];
    }
  }

  /** The loop of `predict` for a regressor. */
  method RegressionPredictions(predict: Row -> real, futureRow: Cell -> Row, last: Row, lastColumns: seq<string>, t0: Cell,
                               featureColumns: seq<string>, hoursAhead: nat) returns (hourly: seq<HourlyPrediction>)
    ensures hourly == HourlyFrom(predict, futureRow, last, lastColumns, t0, featureColumns, 1, hoursAhead)
  {
    hourly := [];
    var row := last;
    for hour := 1 to hoursAhead + 1
      invariant hourly + HourlyFrom(predict, futureRow, row, lastColumns, t0, featureColumns, hour, hoursAhead)
             == HourlyFrom(predict, futureRow, last, lastColumns, t0, featureColumns, 1, hoursAhead)
    {
      var entry, next := PredictHour(predict, futureRow, row, lastColumns, t0, featureColumns, hour, hoursAhead);
      AppendRegroups(hourly, entry, HourlyFrom(predict, futureRow, next, lastColumns, t0, featureColumns, hour + 1, hoursAhead));
      hourly := hourly + [entry];
      row := next;
    }
  }

  lemma AppendRegroups<T>(s: seq<T>, x: T, t: seq<T>)
    ensures s + ([x] + t) == (s + [x]) + t
  {
  }

  /** One pass of the loop of `predict`: the prediction for hour `hour`,
      and the last row with the predicted level and the time written in. */
  method PredictHour(predict: Row -> real, futureRow: Cell -> Row, row: Row, lastColumns: seq<string>, t0: Cell,
                     featureColumns: seq<string>, hour: nat, hoursAhead: nat) returns (entry: HourlyPrediction, next: Row)
    requires 1 <= hour <= hoursAhead
    ensures HourlyFrom(predict, futureRow, row, lastColumns, t0, featureColumns, hour, hoursAhead)
         == [entry] + HourlyFrom(predict, futureRow, next, lastColumns, t0, featureColumns, hour + 1, hoursAhead)
  {
    var futureTime := AddHours(t0, hour);
    var features := FutureFeatures(futureRow(futureTime), row, lastColumns, featureColumns);
    var predicted := Clamp(predict(features));
    entry := HourlyPrediction(futureTime, Round2(predicted));
    next := row[FillLevelCol := Num(predicted)][TimestampCol := futureTime];
    HourlyFromStep(predict, futureRow, row, lastColumns, t0, featureColumns, hour, hoursAhead);
  }


  /** What `predict` returns for a prepared frame: the current values of
      the last row; one prediction per hour ahead, each within 0..100; the
      last of them as the predicted level; and the first full hour. ARIMA
      predicts its clipped, rounded forecast; a regressor its clipped,
      rounded prediction for the future features of the last row. */
  ghost predicate IsForecast(f: Forecast, binId: string, modelType: string, model: Model, df: Frame, info: BinInfo,
                             num: Numerics, featureColumns: seq<string>, hoursAhead: nat)
    requires WellFormed(df) && !Empty(df) && hoursAhead >= 1
  {
    var last := df.rows[|df.rows| - 1];
    var hourly := f.hourlyPredictions;
    && f.binId == binId && f.modelType == modelType
    && f.currentFillLevel == RoundCell(if FillLevelCol in last then last[FillLevelCol] else Missing)
    && f.currentTime == (if TimestampCol in last then last[TimestampCol] else Missing)
    && |hourly| == hoursAhead
    && (forall i :: 0 <= i < hoursAhead ==>
          hourly[i].timestamp == AddHours(f.currentTime, i + 1) && 0.0 <= hourly[i].predictedFillLevel <= 100.0)
    && f.predictedFillLevel == hourly[hoursAhead - 1].predictedFillLevel
    && f.predictionTime == hourly[hoursAhead - 1].timestamp
    && IsFirstFullHour(hourly, f.hoursUntilFull, f.predictedFullTime)
    && (model.Arima? ==>
          forall i :: 0 <= i < hoursAhead ==> hourly[i].predictedFillLevel == Round2(Clamp(model.forecast(i + 1))))
    && (model.Regressor? ==>
          forall i :: 0 <= i < hoursAhead ==>
            hourly[i].predictedFillLevel
              == Round2(Clamp(model.predict(FutureFeatures(FutureRow(AddHours(f.currentTime, i + 1), info, num),
                                                           last, df.columns, featureColumns)))))
  }

  /** `predict` from the current values on, including `_predict_arima`. */
  method ForecastHours(binId: string, modelType: string, model: Model, df: Frame, info: BinInfo, num: Numerics,
                       featureColumns: seq<string>, hoursAhead: nat, useArima: bool) returns (f: Forecast)
    requires WellFormed(df) && !Empty(df) && FillLevelCol in df.columns && TimestampCol in df.columns
    requires hoursAhead >= 1 && FillLevelCol !in featureColumns
    requires useArima <==> model.Arima?
    ensures IsForecast(f, binId, modelType, model, df, info, num, featureColumns, hoursAhead)
  {
    var last := df.rows[|df.rows| - 1];
    var currentFill := last[FillLevelCol];
    var currentTime := last[TimestampCol];
    var hourly: seq<HourlyPrediction>;
    if useArima {
      hourly := ArimaPredictions(model.forecast, currentTime, hoursAhead);
    } else {
      var futureRow := t => FutureRow(t, info, num);
      hourly := RegressionPredictions(model.predict, futureRow, last, df.columns, currentTime, featureColumns, hoursAhead);
      forall i | 0 <= i < hoursAhead
        ensures hourly[i].predictedFillLevel == Round2(Clamp(model.predict(
                  FutureFeatures(FutureRow(AddHours(currentTime, i + 1), info, num), last, df.columns, featureColumns))))
      {
        HourlyIgnoresPredictedFill(model.predict, futureRow, last, df.columns, currentTime, featureColumns, 1, hoursAhead, i);
      }
    }
    var hours, time := FindFullHour(hourly);
    f := Forecast(binId, modelType, RoundCell(currentFill), currentTime,
                  hourly[hoursAhead - 1].predictedFillLevel, hourly[hoursAhead - 1].timestamp, hours, time, hourly);
  }

  // ---------------------------------------------------------------------
  // Saved models

  /** The directory of saved models, shared by every forecaster: the model
      of kind `k` for bin `b` (the file `b_k.joblib`) and the feature
      columns of bin `b` (the file `b_features.joblib`). */
  class ModelDirectory {
    var saved: map<(string, string), Model>
    var savedFeatures: map<string, seq<string>>

    /** Only regressors of the saved kinds are written, the tree-based ones
        with their importances, and no feature list holds the fill level. */
    ghost predicate Valid()
      reads this
    {
      && ValidSaved(saved)
      && (forall b :: b in savedFeatures ==> FillLevelCol !in savedFeatures[b])
    }

    /** A new, empty directory. */
    constructor ()
      ensures Valid() && saved == map[] && savedFeatures == map[]
    {
      saved := map[];
      savedFeatures := map[];
    }
  }

  /** The files `_save_models` writes for the models in memory: every kind
      but ARIMA. */
  function SavedEntries(binId: string, models: map<string, Model>): (entries: map<(string, string), Model>)
    ensures forall key :: key in entries <==> key.0 == binId && key.1 in models && key.1 != ArimaKind
    ensures forall k :: k in models && k != ArimaKind ==> entries[(binId, k)] == models[k]
  {
    map k | k in models && k != ArimaKind :: (binId, k) := models[k]
  }

  /** The models in memory after `_load_models` has looked at the given
      kinds in turn: a kind with a file for the bin replaces the model in
      memory. */
  function Loaded(binId: string, models: map<string, Model>, saved: map<(string, string), Model>, kinds: seq<string>)
    : (loaded: map<string, Model>)
    ensures forall k :: k in loaded <==> k in models || (k in kinds && (binId, k) in saved)
    ensures forall k :: k in loaded ==> loaded[k] == if k in kinds && (binId, k) in saved then saved[(binId, k)] else models[k]
    decreases |kinds|
  {
    if kinds == [] then models
    else
      var k := kinds[0];
      Loaded(binId, if (binId, k) in saved then models[k := saved[(binId, k)]] else models, saved, kinds[1..])
  }

  /** The loop of `_save_models` over the models in memory. */
  method WriteModels(binId: string, models: map<string, Model>, saved: map<(string, string), Model>)
    returns (written: map<(string, string), Model>)
    ensures written == saved + SavedEntries(binId, models)
  {
    written := saved;
    var pending := models.Keys;
    while pending != {}
      invariant pending <= models.Keys
      invariant forall key :: key in written <==>
                  key in saved || (key.0 == binId && key.1 in models && key.1 !in pending && key.1 != ArimaKind)
      invariant forall key :: key in written ==>
                  written[key] == if key.0 == binId && key.1 in models && key.1 !in pending && key.1 != ArimaKind
                                  then models[key.1] else saved[key]
      decreases pending
    {
      var k :| k in pending;
      if k != ArimaKind {
        written := written[(binId, k) := models[k]];
      }
      pending := pending - {k};
    }
  }

  /** The loop of `_load_models` over the saved kinds. */
  method ReadModels(binId: string, models: map<string, Model>, saved: map<(string, string), Model>)
    returns (loaded: map<string, Model>)
    ensures loaded == Loaded(binId, models, saved, SavedKinds)
  {
    loaded := models;
    for i := 0 to |SavedKinds|
      invariant Loaded(binId, loaded, saved, SavedKinds[i..]) == Loaded(binId, models, saved, SavedKinds)
    {
      var kind := SavedKinds[i];
      assert SavedKinds[i..][1..] == SavedKinds[i + 1..];
      if (binId, kind) in saved {
        loaded := loaded[kind := saved[(binId, kind)]];
      }
    }
  }

  /** What `_save_models` writes, `_load_models` reads back: a forecaster
      for the same bin that loads after a save has every saved kind the
      saving one had in memory, and an ARIMA model only if it had one in
      memory already. */
  lemma SaveThenLoad(binId: string, models: map<string, Model>, saved: map<(string, string), Model>, inMemory: map<string, Model>)
    ensures var loaded := Loaded(binId, inMemory, saved + SavedEntries(binId, models), SavedKinds);
            && (forall k :: k in models && k in SavedKinds ==> k in loaded && loaded[k] == models[k])
            && (ArimaKind in loaded <==> ArimaKind in inMemory)
  {
    var all := saved + SavedEntries(binId, models);
    forall k | k in models && k in SavedKinds
      ensures (binId, k) in all && all[(binId, k)] == models[k]
    {
      assert k != ArimaKind;
    }
  }

  /** The models a forecaster may hold: regressors of the saved kinds, the
      tree-based ones with importances, and an ARIMA model only when the
      library is available. */
  ghost predicate ValidModels(models: map<string, Model>, arimaAvailable: bool) {
    forall k :: k in models ==>
      || (k in SavedKinds && models[k].Regressor? && (models[k].importances.Some? <==> k != Linear))
      || (k == ArimaKind && models[k].Arima? && arimaAvailable)
  }

  /** The saved files: regressors of the saved kinds, the tree-based ones
      with importances. */
  ghost predicate ValidSaved(saved: map<(string, string), Model>) {
    forall key :: key in saved ==>
      key.1 in SavedKinds && saved[key].Regressor? && (saved[key].importances.Some? <==> key.1 != Linear)
  }

  lemma TrainedModelsAreValid(models: map<string, Model>, split: Split, series: seq<Cell>, ln: Learners,
                              modelTypes: seq<string>, arimaAvailable: bool)
    requires ValidModels(models, arimaAvailable)
    ensures ValidModels(TrainedModels(models, split, series, ln, modelTypes, arimaAvailable), arimaAvailable)
  {
  }

  lemma SavedEntriesAreValid(binId: string, models: map<string, Model>, arimaAvailable: bool)
    requires ValidModels(models, arimaAvailable)
    ensures ValidSaved(SavedEntries(binId, models))
  {
  }

  lemma LoadedIsValid(binId: string, models: map<string, Model>, saved: map<(string, string), Model>, arimaAvailable: bool)
    requires ValidModels(models, arimaAvailable) && ValidSaved(saved)
    ensures ValidModels(Loaded(binId, models, saved, SavedKinds), arimaAvailable)
  {
  }

  // ---------------------------------------------------------------------
  // The forecaster

  /** `FillLevelForecaster`: the models of one bin in memory, the feature
      columns they were trained on and the last training metrics. */
  class FillLevelForecaster {
    const binId: string
    const dir: ModelDirectory
    const arimaAvailable: bool
    var models: map<string, Model>
    var featureColumns: seq<string>
    var metrics: seq<(string, Metrics)>

    /** The regressors are of the saved kinds, the tree-based ones with
        importances; an ARIMA model is one and exists only when the library
        does; the features never include the fill level. */
    ghost predicate Valid()
      reads this, dir
    {
      && dir.Valid()
      && ValidModels(models, arimaAvailable)
      && FillLevelCol !in featureColumns
    }

    constructor (binId: string, dir: ModelDirectory, arimaAvailable: bool)
      requires dir.Valid()
      ensures Valid()
      ensures this.binId == binId && this.dir == dir && this.arimaAvailable == arimaAvailable
      ensures models == map[] && featureColumns == [] && metrics == []
    {
      this.binId := binId;
      this.dir := dir;
      this.arimaAvailable := arimaAvailable;
      models := map[];
      featureColumns := [];
      metrics := [];
    }

    /** `_save_models`: every model in memory but ARIMA, and the feature
        columns, are written for this bin. */
    method SaveModels()
      requires Valid()
      modifies dir
      ensures Valid()
      ensures dir.saved == old(dir.saved) + SavedEntries(binId, models)
      ensures dir.savedFeatures == old(dir.savedFeatures)[binId := featureColumns]
    {
      var saved := WriteModels(binId, models, dir.saved);
      SavedEntriesAreValid(binId, models, arimaAvailable);
      dir.saved := saved;
      dir.savedFeatures := dir.savedFeatures[binId := featureColumns];
    }

    /** `_load_models`: each saved kind with a file for this bin replaces
        the model in memory, and saved feature columns replace the ones in
        memory. */
    method LoadModels()
      requires Valid()
      modifies this
      ensures Valid()
      ensures models == Loaded(binId, old(models), dir.saved, SavedKinds)
      ensures featureColumns == if binId in dir.savedFeatures then dir.savedFeatures[binId] else old(featureColumns)
      ensures metrics == old(metrics)
    {
      var loaded := ReadModels(binId, models, dir.saved);
      LoadedIsValid(binId, models, dir.saved, arimaAvailable);
      models := loaded;
      if binId in dir.savedFeatures {
        featureColumns := dir.savedFeatures[binId];
      }
    }

    /** `train_models`. Too little prepared data is an error and changes
        nothing; otherwise the requested kinds are trained, the metrics kept
        and the models saved. */
    method TrainModels(readings: seq<SensorReading>, info: BinInfo, num: Numerics, ln: Learners, modelTypes: seq<string>)
      returns (outcome: TrainOutcome)
      requires Valid()
      modifies this, dir
      ensures Valid()
      ensures var df := PrepareData(readings, info, num);
              outcome.TrainError? <==> Empty(df) || |df.rows| < MinPreparedRows
      ensures outcome.TrainError? ==>
                outcome.message == InsufficientTraining && unchanged(this) && unchanged(dir)
      ensures outcome.Trained? ==>
                var df := PrepareData(readings, info, num);
                var split := CreateTrainTestSplit(df, FillLevelCol, TestSize).value;
                var series := Column(df, FillLevelCol);
                && outcome.results == TrainingResults(split, series, ln, modelTypes, arimaAvailable)
                && metrics == outcome.results
                && featureColumns == FeatureColumns(df, FillLevelCol)
                && models == TrainedModels(old(models), split, series, ln, modelTypes, arimaAvailable)
                && dir.saved == old(dir.saved) + SavedEntries(binId, models)
                && dir.savedFeatures == old(dir.savedFeatures)[binId := featureColumns]
    {
      var df := PrepareData(readings, info, num);
      if Empty(df) || |df.rows| < MinPreparedRows {
        return TrainError(InsufficientTraining);
      }
      var results := TrainOn(df, ln, modelTypes);
      return Trained(results);
    }

    /** The part of `train_models` after the size check. The split exists
        and has at least eight training rows, so the check for fewer than
        five never fires. */
    method TrainOn(df: Frame, ln: Learners, modelTypes: seq<string>) returns (results: seq<(string, Metrics)>)
      requires Valid() && WellFormed(df) && FillLevelCol in df.columns && |df.rows| >= MinPreparedRows
      modifies this, dir
      ensures Valid()
      ensures var split := CreateTrainTestSplit(df, FillLevelCol, TestSize).value;
              var series := Column(df, FillLevelCol);
              && results == TrainingResults(split, series, ln, modelTypes, arimaAvailable)
              && metrics == results
              && featureColumns == FeatureColumns(df, FillLevelCol)
              && models == TrainedModels(old(models), split, series, ln, modelTypes, arimaAvailable)
              && dir.saved == old(dir.saved) + SavedEntries(binId, models)
              && dir.savedFeatures == old(dir.savedFeatures)[binId := featureColumns]
    {
      TrainingSplitIsLargeEnough(df);
      var split := CreateTrainTestSplit(df, FillLevelCol, TestSize).value;
      TrainTestSplitPartition(df, FillLevelCol, TestSize);
      var series := Column(df, FillLevelCol);
      featureColumns := split.xTrain.columns;
      assert featureColumns == FeatureColumns(df, FillLevelCol);
      results := TrainingResults(split, series, ln, modelTypes, arimaAvailable);
      TrainedModelsAreValid(models, split, series, ln, modelTypes, arimaAvailable);
      models := TrainedModels(models, split, series, ln, modelTypes, arimaAvailable);
      metrics := results;
      SaveModels();
    }

    /** `predict`. The model is loaded from the directory when it is not in
        memory; a model still missing, or no prepared data, is an error;
        otherwise the forecast starts from the last prepared row. */
    method Predict(readings: seq<SensorReading>, info: BinInfo, num: Numerics, hoursAhead: nat, modelType: string)
      returns (outcome: PredictOutcome)
      requires Valid() && hoursAhead >= 1
      modifies this
      ensures Valid()
      ensures models == if modelType in old(models) then old(models) else Loaded(binId, old(models), dir.saved, SavedKinds)
      ensures featureColumns == if modelType in old(models) then old(featureColumns)
                                else if binId in dir.savedFeatures then dir.savedFeatures[binId]
                                else old(featureColumns)
      ensures metrics == old(metrics)
      ensures modelType !in models ==> outcome == PredictError(NotTrained(modelType))
      ensures modelType in models && Empty(PrepareData(readings, info, num)) ==> outcome == PredictError(InsufficientPrediction)
      ensures modelType in models && !Empty(PrepareData(readings, info, num)) ==>
                && outcome.Predicted?
                && IsForecast(outcome.forecast, binId, modelType, models[modelType], PrepareData(readings, info, num),
                              info, num, featureColumns, hoursAhead)
    {
      ghost var expected := if modelType in models then models else Loaded(binId, models, dir.saved, SavedKinds);
      if modelType !in models {
        LoadModels();
      }
      assert models == expected;
      if modelType !in models {
        return PredictError(NotTrained(modelType));
      }
      var df := PrepareData(readings, info, num);
      if Empty(df) {
        return PredictError(InsufficientPrediction);
      }
      var model := models[modelType];
      assert model.Arima? <==> modelType == ArimaKind && arimaAvailable by {
        assert ValidModels(models, arimaAvailable);
      }
      var forecast := ForecastHours(binId, modelType, model, df, info, num, featureColumns, hoursAhead,
                                    modelType == ArimaKind && arimaAvailable);
      return Predicted(forecast);
    }

    /** `get_feature_importance`: only for the tree-based kinds, loading the
        model when it is not in memory; the features with their importances,
        most important first, at most fifteen. */
    method GetFeatureImportance(modelType: string) returns (outcome: ImportanceOutcome)
      requires Valid()
      modifies this
      ensures Valid()
      ensures modelType != Tree && modelType != Forest ==>
                outcome == ImportanceError(OnlyTreeModels) && unchanged(this)
      ensures (modelType == Tree || modelType == Forest) ==>
                && models == (if modelType in old(models) then old(models) else Loaded(binId, old(models), dir.saved, SavedKinds))
                && featureColumns == (if modelType in old(models) then old(featureColumns)
                                      else if binId in dir.savedFeatures then dir.savedFeatures[binId]
                                      else old(featureColumns))
                && metrics == old(metrics)
                && (modelType !in models ==> outcome == ImportanceError(NotTrained(modelType)))
                && (modelType in models ==>
                      outcome == Importances(modelType, TopImportances(ZipImportances(featureColumns, models[modelType].importances.value))))
    {
      if modelType != Tree && modelType != Forest {
        return ImportanceError(OnlyTreeModels);
      }
      if modelType !in models {
        LoadModels();
      }
      if modelType !in models {
        return ImportanceError(NotTrained(modelType));
      }
      // Tree-based models always carry importances, so the check for a
      // model without them never fires.
      var importances := models[modelType].importances.value;
      var scores := PairImportances(featureColumns, importances);
      return Importances(modelType, TopImportances(scores));
    }
  }
}
