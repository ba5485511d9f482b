/** The forecast chart's data: recorded readings and predicted points
    merged into one series ordered by time. */
module PredictiveChart {
  import opened Common

  /** An input point; the timestamp is already in milliseconds since the
      epoch (what `new Date(...).getTime()` gives for a valid date). */
  datatype Point = Point(timestamp: real, fillLevelPercent: real)

  datatype Row = Row(timestamp: real, actual: Option<real>, predicted: Option<real>, kind: string)

  const ActualKind := "actual"
  const PredictedKind := "predicted"

  function ActualRow(p: Point): Row {
    Row(p.timestamp, Some(p.fillLevelPercent), None, ActualKind)
  }

  function PredictedRow(p: Point): Row {
    Row(p.timestamp, None, Some(p.fillLevelPercent), PredictedKind)
  }

  function ActualRows(points: seq<Point>): (r: seq<Row>)
    ensures |r| == |points|
    ensures forall i :: 0 <= i < |points| ==> r[i] == ActualRow(points[i])
  {
    if points == [] then [] else [ActualRow(points[0])] + ActualRows(points[1..])
  }

  function PredictedRows(points: seq<Point>): (r: seq<Row>)
    ensures |r| == |points|
    ensures forall i :: 0 <= i < |points| ==> r[i] == PredictedRow(points[i])
  {
    if points == [] then [] else [PredictedRow(points[0])] + PredictedRows(points[1..])
  }

  function Timestamp(row: Row): real {
    row.timestamp
  }

  /** `chartData`: the tagged rows of both inputs, sorted by timestamp. */
  function ChartData(historical: seq<Point>, predicted: seq<Point>): (r: seq<Row>)
    ensures |r| == |historical| + |predicted|
    ensures multiset(r) == multiset(ActualRows(historical) + PredictedRows(predicted))
    ensures SortedBy(r, Timestamp)
  {
    SortBySorted(ActualRows(historical) + PredictedRows(predicted), Timestamp);
    SortBy(ActualRows(historical) + PredictedRows(predicted), Timestamp)
  }

  /** Every row is either a reading (no predicted value) or a prediction (no
      actual value), and comes from the corresponding input. */
  lemma RowsAreTagged(historical: seq<Point>, predicted: seq<Point>, row: Row)
    requires row in ChartData(historical, predicted)
    ensures row.kind == ActualKind ==> row.predicted.None? && exists p :: p in historical && row == ActualRow(p)
    ensures row.kind == PredictedKind ==> row.actual.None? && exists p :: p in predicted && row == PredictedRow(p)
    ensures row.kind == ActualKind || row.kind == PredictedKind
  {
    var merged := ActualRows(historical) + PredictedRows(predicted);
    assert row in merged by {
      assert row in multiset(ChartData(historical, predicted));
    }
    var i :| 0 <= i < |merged| && merged[i] == row;
    assert |ActualKind| != |PredictedKind|;
    if i < |historical| {
      var p := historical[i];
      assert row == ActualRow(p) && p in historical;
    } else {
      var p := predicted[i - |historical|];
      assert row == PredictedRow(p) && p in predicted;
    }
  }

  datatype ChartView = NoData | Lines(rows: seq<Row>)

  /** The placeholder appears exactly when both inputs are empty. */
  function Render(historical: seq<Point>, predicted: seq<Point>): (v: ChartView)
    ensures v.NoData? <==> historical == [] && predicted == []
    ensures v.Lines? ==> v.rows == ChartData(historical, predicted)
  {
    var rows := ChartData(historical, predicted);
    if |rows| == 0 then NoData else Lines(rows)
  }
}
