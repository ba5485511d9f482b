/** Data preparation for the fill-level forecaster. Sensor readings become a
    data frame, which is cleaned and then extended with time, lag, rolling,
    rate and bin-metadata features, and finally split in time order into a
    training part and a test part.

    A frame is a list of column names and a list of rows; each row maps every
    column name to a cell. Timestamps are naive date-times counted in seconds
    since 1970-01-01T00:00. The floating-point statistics of the source
    (quantiles, rolling means and deviations, interpolated values, sines and
    cosines) are parameters. */
module DataPreprocessor {
  import opened Common

  /** A cell: a number, a date-time, or a missing value (NaN or None). */
  datatype Cell = Num(x: real) | Stamp(seconds: int) | Missing

  function OfOption(o: Option<real>): (c: Cell)
    ensures o.None? <==> c.Missing?
    ensures o.Some? ==> c == Num(o.value)
  {
    if o.Some? then Num(o.value) else Missing
  }

  type Row = map<string, Cell>

  datatype Frame = Frame(columns: seq<string>, rows: seq<Row>)

  const TimestampCol := "timestamp"
  const FillLevelCol := "fill_level_percent"

  /** No name occurs twice: each name is absent from the names before it.
      Stated from the back, one name at a time, like the columns are added. */
  predicate Distinct(cols: seq<string>) {
    cols == [] || (cols[|cols| - 1] !in cols[..|cols| - 1] && Distinct(cols[..|cols| - 1]))
  }

  /** `Distinct` is the usual pairwise statement. */
  lemma {:induction false} DistinctPairwise(cols: seq<string>)
    ensures Distinct(cols) <==> forall i, j :: 0 <= i < j < |cols| ==> cols[i] != cols[j]
  {
    if cols != [] {
      var init := cols[..|cols| - 1];
      var last := cols[|cols| - 1];
      DistinctPairwise(init);
      assert forall i :: 0 <= i < |init| ==> init[i] == cols[i];
      if Distinct(cols) {
        forall i, j | 0 <= i < j < |cols| ensures cols[i] != cols[j] {
          if j == |cols| - 1 {
            assert cols[i] == init[i] && init[i] in init;
          } else {
            assert cols[i] == init[i] && cols[j] == init[j];
          }
        }
      } else if last in init {
        var i :| 0 <= i < |init| && init[i] == last;
        assert cols[i] == cols[|cols| - 1];
      } else {
        var i, j :| 0 <= i < j < |init| && init[i] == init[j];
        assert cols[i] == cols[j];
      }
    }
  }

  /** Column names are distinct and every row holds exactly the columns. */
  ghost predicate WellFormed(f: Frame) {
    && Distinct(f.columns)
    && forall i, c :: 0 <= i < |f.rows| ==> (c in f.rows[i] <==> c in f.columns)
  }

  /** pandas' `DataFrame.empty`: no rows or no columns. */
  predicate Empty(f: Frame) {
    |f.rows| == 0 || |f.columns| == 0
  }

  /** The cells of one column, top to bottom. */
  function Column(f: Frame, c: string): (cells: seq<Cell>)
    requires WellFormed(f) && c in f.columns
    ensures |cells| == |f.rows|
    ensures forall i :: 0 <= i < |f.rows| ==> cells[i] == f.rows[i][c]
  {
    seq(|f.rows|, i requires 0 <= i < |f.rows| => f.rows[i][c])
  }

  /** `df[c] = cells`: replaces the column where it exists and appends it
      otherwise. */
  function SetColumn(f: Frame, c: string, cells: seq<Cell>): (r: Frame)
    requires WellFormed(f) && |cells| == |f.rows|
    ensures WellFormed(r)
    ensures r.columns == if c in f.columns then f.columns else f.columns + [c]
    ensures |r.rows| == |f.rows|
    ensures forall i :: 0 <= i < |f.rows| ==> r.rows[i] == f.rows[i][c := cells[i]]
  {
    Frame(if c in f.columns then f.columns else f.columns + [c],
          seq(|f.rows|, i requires 0 <= i < |f.rows| => f.rows[i][c := cells[i]]))
  }

  /** `df[c] = value` for a scalar: the same cell in every row. */
  function Constant(f: Frame, v: Cell): (cells: seq<Cell>)
    ensures |cells| == |f.rows| && forall i :: 0 <= i < |cells| ==> cells[i] == v
  {
    seq(|f.rows|, _ => v)
  }

  /** A row without missing cells. */
  predicate Complete(r: Row) {
    forall c :: c in r ==> !r[c].Missing?
  }

  /** `df.dropna()`: keeps the rows without missing cells, in order. */
  function DropNa(f: Frame): (r: Frame)
    ensures r.columns == f.columns
    ensures IsSubseq(r.rows, f.rows)
    ensures forall i :: 0 <= i < |r.rows| ==> Complete(r.rows[i]) && r.rows[i] in f.rows
  {
    FilterIsSubseq(f.rows, Complete);
    Frame(f.columns, Filter(f.rows, Complete))
  }

  lemma {:induction false} DropNaWellFormed(f: Frame)
    requires WellFormed(f)
    ensures WellFormed(DropNa(f))
  {
    var r := DropNa(f);
    forall i, c | 0 <= i < |r.rows| ensures c in r.rows[i] <==> c in f.columns {
      var j :| 0 <= j < |f.rows| && f.rows[j] == r.rows[i];
    }
  }

  /** A frame whose rows are all complete loses nothing to `dropna`. */
  lemma {:induction false} DropNaOfCompleteFrame(f: Frame)
    requires forall i :: 0 <= i < |f.rows| ==> Complete(f.rows[i])
    ensures DropNa(f) == f
  {
    forall x | x in f.rows ensures Complete(x) {
      var i :| 0 <= i < |f.rows| && f.rows[i] == x;
    }
    FilterAllTrue(f.rows, Complete);
  }

  // ---------------------------------------------------------------------
  // Lag features

  /** `s.shift(k)`: row `i` takes the value of row `i - k`; the first `k`
      rows become missing. */
  function Shift(cells: seq<Cell>, k: nat): (r: seq<Cell>)
    ensures |r| == |cells|
    ensures forall i :: 0 <= i < |r| ==> r[i] == if i < k then Missing else cells[i - k]
  {
    seq(|cells|, i requires 0 <= i < |cells| => if i < k then Missing else cells[i - k])
  }

  /** The name `f'{target_col}_lag_{lag}'`. */
  function LagName(target: string, k: nat): string {
    target + "_lag_" + NatToString(k)
  }

  lemma {:induction false} LagNameInjective(target: string, a: nat, b: nat)
    requires LagName(target, a) == LagName(target, b)
    ensures a == b
  {
    var p := target + "_lag_";
    assert LagName(target, a)[|p|..] == NatToString(a);
    assert LagName(target, b)[|p|..] == NatToString(b);
    NatToStringInjective(a, b);
  }

  lemma {:induction false} LagNameIsNotTarget(target: string, k: nat)
    ensures LagName(target, k) != target
  {
    assert |LagName(target, k)| > |target|;
  }

  /** The frame after the loop has added the columns for `lags`, before the
      rows with missing lags are dropped. */
  function AddLags(f: Frame, target: string, lags: seq<nat>): (r: Frame)
    requires WellFormed(f) && target in f.columns
    ensures WellFormed(r) && |r.rows| == |f.rows| && target in r.columns
    ensures forall i :: 0 <= i < |f.rows| ==> r.rows[i][target] == f.rows[i][target]
  {
    if lags == [] then f
    else
      var g := AddLags(f, target, lags[..|lags| - 1]);
      LagNameIsNotTarget(target, lags[|lags| - 1]);
      SetColumn(g, LagName(target, lags[|lags| - 1]), Shift(Column(g, target), lags[|lags| - 1]))
  }

  /** `extract_lag_features`: a frame without the target column, or an
      empty one, is returned unchanged. */
  function LagFeatures(f: Frame, target: string, lags: seq<nat>): (r: Frame)
    requires WellFormed(f)
    ensures WellFormed(r) && forall c :: c in f.columns ==> c in r.columns
  {
    if target !in f.columns || Empty(f) then f
    else
      DropNaWellFormed(AddLags(f, target, lags));
      AddLagsColumns(f, target, lags);
      DropNa(AddLags(f, target, lags))
  }

  /** The loop of `extract_lag_features`, one column per lag on a copy of the
      frame, then `dropna`. */
  method ExtractLagFeatures(f: Frame, target: string, lags: seq<nat>) returns (r: Frame)
    requires WellFormed(f)
    ensures r == LagFeatures(f, target, lags)
  {
    if target !in f.columns || Empty(f) {
      return f;
    }
    var df := f;
    for k := 0 to |lags|
      invariant df == AddLags(f, target, lags[..k])
    {
      assert lags[..k + 1][..k] == lags[..k];
      df := SetColumn(df, LagName(target, lags[k]), Shift(Column(df, target), lags[k]));
    }
    assert lags[..|lags|] == lags;
    r := DropNa(df);
  }

  /** `max(lags)`, 0 for no lags. */
  function MaxOf(s: seq<nat>): (m: nat)
    ensures forall k :: k in s ==> k <= m
  {
    Largest(s)
  }

  /** The maximum of some lags is one of them; of none, it is 0. Kept out of
      `MaxOf`'s contract, which every statement about a lag row mentions. */
  lemma {:induction false} MaxOfIsALag(s: seq<nat>)
    ensures s == [] ==> MaxOf(s) == 0
    ensures s != [] ==> MaxOf(s) in s
  {
  }

  /** The largest element, computed from the back; `MaxOf` is its only user,
      so that statements about the maximum mention a single term. */
  function Largest(s: seq<nat>): (m: nat)
    ensures forall k :: k in s ==> k <= m
    ensures s != [] ==> m in s
  {
    if s == [] then 0
    else
      var m := Largest(s[..|s| - 1]);
      assert forall k :: k in s ==> k in s[..|s| - 1] || k == s[|s| - 1];
      if s[|s| - 1] > m then s[|s| - 1] else m
  }

  /** `c` is the name of the column for one of the lags. */
  predicate IsLagName(target: string, lags: seq<nat>, c: string) {
    exists k :: k in lags && c == LagName(target, k)
  }

  /** The loop adds exactly one column per lag, after the original ones. */
  lemma {:induction false} AddLagsColumns(f: Frame, target: string, lags: seq<nat>)
    requires WellFormed(f) && target in f.columns
    ensures var cols := AddLags(f, target, lags).columns;
            forall c :: c in cols <==> c in f.columns || IsLagName(target, lags, c)
  {
    if lags != [] {
      var init := lags[..|lags| - 1];
      AddLagsColumns(f, target, init);
      forall c | IsLagName(target, init, c) ensures IsLagName(target, lags, c) {
        var k :| k in init && c == LagName(target, k);
        assert k in lags;
      }
      forall c | IsLagName(target, lags, c) && c != LagName(target, lags[|lags| - 1])
        ensures IsLagName(target, init, c)
      {
        var k :| k in lags && c == LagName(target, k);
        assert k in init;
      }
    }
  }

  /** The original columns keep their cells. */
  lemma {:induction false} AddLagsKeepsColumns(f: Frame, target: string, lags: seq<nat>, i: nat, c: string)
    requires WellFormed(f) && target in f.columns && i < |f.rows|
    requires c in f.columns && !IsLagName(target, lags, c)
    ensures c in AddLags(f, target, lags).rows[i] && AddLags(f, target, lags).rows[i][c] == f.rows[i][c]
  {
    if lags != [] {
      var init := lags[..|lags| - 1];
      assert forall k :: k in init ==> k in lags;
      AddLagsKeepsColumns(f, target, init, i, c);
      var g := AddLags(f, target, init);
      assert AddLags(f, target, lags).rows[i] == g.rows[i][LagName(target, lags[|lags| - 1]) := Shift(Column(g, target), lags[|lags| - 1])[i]];
    }
  }

  /** The column for lag `k` holds the target `k` rows up, and is missing in
      the first `k` rows. */
  lemma {:induction false} AddLagsLagCell(f: Frame, target: string, lags: seq<nat>, i: nat, k: nat)
    requires WellFormed(f) && target in f.columns && i < |f.rows| && k in lags
    ensures var row := AddLags(f, target, lags).rows[i];
            LagName(target, k) in row && row[LagName(target, k)] == if i < k then Missing else f.rows[i - k][target]
  {
    var last := lags[|lags| - 1];
    if LagName(target, k) == LagName(target, last) {
      assert k == last by {
        LagNameInjective(target, k, last);
      }
      LastLagCell(f, target, lags, i);
    } else {
      var init := lags[..|lags| - 1];
      assert k in init by {
        var idx :| 0 <= idx < |lags| && lags[idx] == k;
        assert idx != |lags| - 1;
        assert init[idx] == k;
      }
      AddLagsLagCell(f, target, init, i, k);
      EarlierLagCell(f, target, lags, i, LagName(target, k));
    }
  }

  /** The column of the last lag holds the target that many rows up. */
  lemma LastLagCell(f: Frame, target: string, lags: seq<nat>, i: nat)
    requires WellFormed(f) && target in f.columns && i < |f.rows| && lags != []
    ensures var row := AddLags(f, target, lags).rows[i];
            var last := lags[|lags| - 1];
            LagName(target, last) in row
            && row[LagName(target, last)] == if i < last then Missing else f.rows[i - last][target]
  {
    var last := lags[|lags| - 1];
    var g := AddLags(f, target, lags[..|lags| - 1]);
    var cells := Shift(Column(g, target), last);
    assert AddLags(f, target, lags).rows[i] == g.rows[i][LagName(target, last) := cells[i]] by {
      AddLagsLast(f, target, lags);
    }
    if i >= last {
      assert cells[i] == Column(g, target)[i - last];
      assert Column(g, target)[i - last] == g.rows[i - last][target];
    }
  }

  /** Any other column keeps the cell it had before the last lag was added. */
  lemma EarlierLagCell(f: Frame, target: string, lags: seq<nat>, i: nat, c: string)
    requires WellFormed(f) && target in f.columns && i < |f.rows| && lags != []
    requires c != LagName(target, lags[|lags| - 1])
    requires c in AddLags(f, target, lags[..|lags| - 1]).rows[i]
    ensures var before := AddLags(f, target, lags[..|lags| - 1]).rows[i];
            c in AddLags(f, target, lags).rows[i] && AddLags(f, target, lags).rows[i][c] == before[c]
  {
    var last := lags[|lags| - 1];
    var g := AddLags(f, target, lags[..|lags| - 1]);
    assert AddLags(f, target, lags).rows[i] == g.rows[i][LagName(target, last) := Shift(Column(g, target), last)[i]] by {
      AddLagsLast(f, target, lags);
    }
  }

  /** The last lag's column is assigned after all the others. */
  lemma {:induction false} AddLagsLast(f: Frame, target: string, lags: seq<nat>)
    requires WellFormed(f) && target in f.columns && lags != []
    ensures var g := AddLags(f, target, lags[..|lags| - 1]);
            AddLags(f, target, lags) == SetColumn(g, LagName(target, lags[|lags| - 1]), Shift(Column(g, target), lags[|lags| - 1]))
  {
  }

  /** From row `m` on, where `m` is at least the lag `k`, the lag column holds
      a target value: row `j + m` holds the target of row `j + m - k`. */
  lemma {:induction false} AddLagsLagCellPresent(f: Frame, target: string, lags: seq<nat>, j: nat, m: nat, k: nat)
    requires WellFormed(f) && target in f.columns && j + m < |f.rows| && k in lags && k <= m
    ensures var row := AddLags(f, target, lags).rows[j + m];
            LagName(target, k) in row && row[LagName(target, k)] == f.rows[j + m - k][target]
  {
    var i := j + m;
    assert k <= i;
    AddLagsLagCell(f, target, lags, i, k);
    assert AddLags(f, target, lags).rows[i][LagName(target, k)] == f.rows[i - k][target];
    SameIndexSameRow(f.rows, i - k, j + m - k);
  }

  /** Two equal indices name the same row. Stated apart, so that the equality
      of the two index expressions is settled by arithmetic alone. */
  lemma {:induction false} SameIndexSameRow(rows: seq<Row>, a: int, b: int)
    requires 0 <= a < |rows| && a == b
    ensures rows[a] == rows[b]
  {
  }

  /** Row `i` of `AddLags` is complete exactly when `i` is at least the
      largest lag, for a frame without missing cells. */
  lemma {:induction false} AddLagsComplete(f: Frame, target: string, lags: seq<nat>, i: nat)
    requires WellFormed(f) && target in f.columns && i < |f.rows|
    requires forall i :: 0 <= i < |f.rows| ==> Complete(f.rows[i])
    ensures Complete(AddLags(f, target, lags).rows[i]) <==> i >= MaxOf(lags)
  {
    var g := AddLags(f, target, lags);
    var m := MaxOf(lags);
    var row := g.rows[i];
    AddLagsColumns(f, target, lags);
    if i >= m {
      forall c | c in row ensures !row[c].Missing? {
        if IsLagName(target, lags, c) {
          var k :| k in lags && c == LagName(target, k);
          AddLagsLagCell(f, target, lags, i, k);
        } else {
          AddLagsKeepsColumns(f, target, lags, i, c);
        }
      }
    } else {
      MaxOfIsALag(lags);
      AddLagsLagCell(f, target, lags, i, m);
    }
  }

  /** After the loop, exactly the rows from `max(lags)` on survive `dropna`. */
  lemma {:induction false} LagFeaturesRows(f: Frame, target: string, lags: seq<nat>)
    requires WellFormed(f) && target in f.columns && !Empty(f)
    requires forall i :: 0 <= i < |f.rows| ==> Complete(f.rows[i])
    ensures var g := AddLags(f, target, lags);
            var m := MaxOf(lags);
            LagFeatures(f, target, lags).rows == if m <= |f.rows| then g.rows[m..] else []
  {
    var g := AddLags(f, target, lags);
    var m := MaxOf(lags);
    forall i | 0 <= i < |g.rows| ensures Complete(g.rows[i]) <==> i >= m {
      AddLagsComplete(f, target, lags, i);
    }
    if m <= |g.rows| {
      FilterSuffix(g.rows, Complete, m);
    } else {
      FilterNoneTrue(g.rows, Complete);
    }
  }

  /** Row `j` after `dropna` is row `j + max(lags)` of the loop's frame. */
  lemma {:induction false} LagFeaturesRowAt(f: Frame, target: string, lags: seq<nat>, j: nat)
    requires WellFormed(f) && target in f.columns && !Empty(f)
    requires forall i :: 0 <= i < |f.rows| ==> Complete(f.rows[i])
    requires j < |LagFeatures(f, target, lags).rows|
    ensures j + MaxOf(lags) < |f.rows|
    ensures LagFeatures(f, target, lags).rows[j] == AddLags(f, target, lags).rows[j + MaxOf(lags)]
  {
    var g := AddLags(f, target, lags);
    var m := MaxOf(lags);
    var rows := LagFeatures(f, target, lags).rows;
    LagFeaturesRows(f, target, lags);
    assert m <= |f.rows| && rows == g.rows[m..];
    assert rows[j] == g.rows[j + m];
  }

  /** One cell of a lag column after `dropna`. */
  lemma {:induction false} LagFeaturesLagCell(f: Frame, target: string, lags: seq<nat>, j: nat, k: nat)
    requires WellFormed(f) && target in f.columns && !Empty(f)
    requires forall i :: 0 <= i < |f.rows| ==> Complete(f.rows[i])
    requires j < |LagFeatures(f, target, lags).rows| && k in lags
    ensures j + MaxOf(lags) - k < |f.rows|
    ensures var row := LagFeatures(f, target, lags).rows[j];
            LagName(target, k) in row && row[LagName(target, k)] == f.rows[j + MaxOf(lags) - k][target]
  {
    LagFeaturesRowAt(f, target, lags, j);
    AddLagsLagCellPresent(f, target, lags, j, MaxOf(lags), k);
  }

  /** One cell of an original column after `dropna`. */
  lemma {:induction false} LagFeaturesKeptCell(f: Frame, target: string, lags: seq<nat>, j: nat, c: string)
    requires WellFormed(f) && target in f.columns && !Empty(f)
    requires forall i :: 0 <= i < |f.rows| ==> Complete(f.rows[i])
    requires j < |LagFeatures(f, target, lags).rows| && c in f.columns && !IsLagName(target, lags, c)
    ensures j + MaxOf(lags) < |f.rows|
    ensures var row := LagFeatures(f, target, lags).rows[j];
            c in row && row[c] == f.rows[j + MaxOf(lags)][c]
  {
    var m := MaxOf(lags);
    LagFeaturesRowAt(f, target, lags, j);
    AddLagsKeepsColumns(f, target, lags, j + m, c);
    var row := LagFeatures(f, target, lags).rows[j];
    assert row == AddLags(f, target, lags).rows[j + m];
    assert c in row && row[c] == f.rows[j + m][c];
  }

  /** Exactly the first `max(lags)` rows, which lack some lag, are dropped. */
  lemma {:induction false} LagFeaturesLength(f: Frame, target: string, lags: seq<nat>)
    requires WellFormed(f) && target in f.columns && !Empty(f)
    requires forall i :: 0 <= i < |f.rows| ==> Complete(f.rows[i])
    ensures |LagFeatures(f, target, lags).rows| == if MaxOf(lags) <= |f.rows| then |f.rows| - MaxOf(lags) else 0
  {
    LagFeaturesRows(f, target, lags);
  }

  // ---------------------------------------------------------------------
  // Adding columns

  /** The column order after assigning `names` one after the other: a name
      that is new is appended, one that exists keeps its place. */
  function AppendNew(cols: seq<string>, names: seq<string>): (r: seq<string>)
    ensures forall c :: c in r <==> c in cols || c in names
    ensures Distinct(cols) ==> Distinct(r)
  {
    if names == [] then cols
    else
      var init := AppendNew(cols, names[..|names| - 1]);
      var n := names[|names| - 1];
      assert forall c :: c in names <==> c in names[..|names| - 1] || c == n;
      if n in init then init else init + [n]
  }

  /** Assigns the columns `names` at once: row `i` gains the cells
      `extra[i]`, which replace cells of the same name. */
  function Extend(f: Frame, names: seq<string>, extra: seq<map<string, Cell>>): (r: Frame)
    requires WellFormed(f) && |extra| == |f.rows|
    requires forall i, c :: 0 <= i < |extra| ==> (c in extra[i] <==> c in names)
    ensures WellFormed(r) && |r.rows| == |f.rows|
    ensures forall c :: c in r.columns <==> c in f.columns || c in names
    ensures forall i, c :: 0 <= i < |f.rows| && c in extra[i] ==> c in r.rows[i] && r.rows[i][c] == extra[i][c]
    ensures forall i, c :: 0 <= i < |f.rows| && c in f.rows[i] && c !in extra[i] ==>
              c in r.rows[i] && r.rows[i][c] == f.rows[i][c]
  {
    Frame(AppendNew(f.columns, names), seq(|f.rows|, i requires 0 <= i < |f.rows| => f.rows[i] + extra[i]))
  }

  // ---------------------------------------------------------------------
  // Time features

  const HourCol := "hour"
  const DayOfWeekCol := "day_of_week"
  const IsWeekendCol := "is_weekend"
  const DayOfMonthCol := "day_of_month"
  const MonthCol := "month"
  const TimeNames := [HourCol, DayOfWeekCol, IsWeekendCol, DayOfMonthCol, MonthCol,
                      "hour_sin", "hour_cos", "day_sin", "day_cos"]

  const SecondsPerHour := 3600
  const SecondsPerDay := 86400

  /** Hour of the day, 0..23 (`dt.hour`). */
  function HourOf(seconds: int): (h: int)
    ensures 0 <= h < 24
  {
    (seconds % SecondsPerDay) / SecondsPerHour
  }

  /** Day of the week with Monday = 0 (`dt.dayofweek`); 1970-01-01 was a
      Thursday. */
  function DayOfWeek(seconds: int): (d: int)
    ensures 0 <= d < 7
  {
    (seconds / SecondsPerDay + 3) % 7
  }

  /** Month (1..12) and day of the month of a day number counted from
      1970-01-01 in the proleptic Gregorian calendar. */
  function CivilMonthDay(days: int): (md: (int, int))
    ensures 1 <= md.0 <= 12 && 1 <= md.1 <= 31
  {
    var z := days + 719468;
    var era := z / 146097;
    var doe := z - era * 146097;
    var yoe := (doe - doe / 1460 + doe / 36524 - doe / 146096) / 365;
    var doy := doe - (365 * yoe + yoe / 4 - yoe / 100);
    var mp := (5 * doy + 2) / 153;
    var d := doy - (153 * mp + 2) / 5 + 1;
    (if mp < 10 then mp + 3 else mp - 9, d)
  }

  /** The time cells of one row, from its timestamp. A missing timestamp
      gives missing features, except `is_weekend`, whose comparison with a
      missing value is false. `sinTurn(x)` and `cosTurn(x)` stand for
      sin(2πx) and cos(2πx). */
  function TimeCells(t: Cell, sinTurn: real -> real, cosTurn: real -> real): (m: map<string, Cell>)
    ensures forall c :: c in m <==> c in TimeNames
  {
    match t
    case Stamp(s) =>
      var hour := HourOf(s);
      var dow := DayOfWeek(s);
      var md := CivilMonthDay(s / SecondsPerDay);
      map[HourCol := Num(hour as real),
          DayOfWeekCol := Num(dow as real),
          IsWeekendCol := Num(if dow >= 5 then 1.0 else 0.0),
          DayOfMonthCol := Num(md.1 as real),
          MonthCol := Num(md.0 as real),
          "hour_sin" := Num(sinTurn(hour as real / 24.0)),
          "hour_cos" := Num(cosTurn(hour as real / 24.0)),
          "day_sin" := Num(sinTurn(dow as real / 7.0)),
          "day_cos" := Num(cosTurn(dow as real / 7.0))]
    case _ =>
      map[HourCol := Missing, DayOfWeekCol := Missing, IsWeekendCol := Num(0.0),
          DayOfMonthCol := Missing, MonthCol := Missing,
          "hour_sin" := Missing, "hour_cos" := Missing, "day_sin" := Missing, "day_cos" := Missing]
  }

  /** `extract_time_features`. */
  function TimeFeatures(f: Frame, sinTurn: real -> real, cosTurn: real -> real): (r: Frame)
    requires WellFormed(f)
    ensures WellFormed(r) && |r.rows| == |f.rows| && forall c :: c in f.columns ==> c in r.columns
    ensures TimestampCol !in f.columns || Empty(f) ==> r == f
  {
    if TimestampCol !in f.columns || Empty(f) then f
    else
      Extend(f, TimeNames, seq(|f.rows|, i requires 0 <= i < |f.rows| =>
        TimeCells(f.rows[i][TimestampCol], sinTurn, cosTurn)))
  }

  /** In a frame with timestamps, each row gains its hour, its weekday and
      the weekend flag, which is 1 exactly on Saturdays and Sundays
      (weekday 5 or 6); the original cells other than time features stay. */
  lemma {:induction false} TimeFeaturesRow(f: Frame, sinTurn: real -> real, cosTurn: real -> real, i: nat, c: string)
    requires WellFormed(f) && TimestampCol in f.columns && !Empty(f) && i < |f.rows|
    requires f.rows[i][TimestampCol].Stamp?
    ensures var row := TimeFeatures(f, sinTurn, cosTurn).rows[i];
            var s := f.rows[i][TimestampCol].seconds;
            && HourCol in row && row[HourCol] == Num(HourOf(s) as real)
            && DayOfWeekCol in row && row[DayOfWeekCol] == Num(DayOfWeek(s) as real)
            && IsWeekendCol in row
            && (row[IsWeekendCol] == Num(1.0) <==> DayOfWeek(s) >= 5)
            && (row[IsWeekendCol] == Num(0.0) <==> DayOfWeek(s) < 5)
            && (c in f.columns && c !in TimeNames ==> c in row && row[c] == f.rows[i][c])
  {
    var extra := seq(|f.rows|, j requires 0 <= j < |f.rows| => TimeCells(f.rows[j][TimestampCol], sinTurn, cosTurn));
    var cells := TimeCells(f.rows[i][TimestampCol], sinTurn, cosTurn);
    assert extra[i] == cells;
    TimeCellsOfStamp(f.rows[i][TimestampCol].seconds, sinTurn, cosTurn);
  }

  /** The hour, weekday and weekend cells computed from a timestamp. */
  lemma {:induction false} TimeCellsOfStamp(s: int, sinTurn: real -> real, cosTurn: real -> real)
    ensures var m := TimeCells(Stamp(s), sinTurn, cosTurn);
            && HourCol in m && m[HourCol] == Num(HourOf(s) as real)
            && DayOfWeekCol in m && m[DayOfWeekCol] == Num(DayOfWeek(s) as real)
            && IsWeekendCol in m && m[IsWeekendCol] == Num(if DayOfWeek(s) >= 5 then 1.0 else 0.0)
  {
  }

  /** The hour, weekday and weekend flag repeat every seven days, and the
      weekday advances by one each day. */
  lemma {:induction false} TimeFeaturesWeekly(s: int)
    ensures HourOf(s + 7 * SecondsPerDay) == HourOf(s)
    ensures DayOfWeek(s + 7 * SecondsPerDay) == DayOfWeek(s)
    ensures DayOfWeek(s + SecondsPerDay) == (DayOfWeek(s) + 1) % 7
  {
    assert (s + 7 * SecondsPerDay) / SecondsPerDay == s / SecondsPerDay + 7;
    assert (s + SecondsPerDay) / SecondsPerDay == s / SecondsPerDay + 1;
    assert (s + 7 * SecondsPerDay) % SecondsPerDay == s % SecondsPerDay;
  }

  /** A fixed date: 2024-01-06 at 15:00 was a Saturday afternoon in January. */
  lemma {:induction false} TimeFeaturesOfKnownDate()
    ensures var s := 1704553200;
            HourOf(s) == 15 && DayOfWeek(s) == 5 && CivilMonthDay(s / SecondsPerDay) == (1, 6)
  {
    var s := 1704553200;
    assert s == 19728 * SecondsPerDay + 54000;
    assert s / SecondsPerDay == 19728 && s % SecondsPerDay == 54000;
    // the day number 19728 through the steps of the calendar computation
    assert (19728 + 719468) / 146097 == 5;
    assert 739196 - 5 * 146097 == 8711;
    assert (8711 - 8711 / 1460 + 8711 / 36524 - 8711 / 146096) / 365 == 23;
    assert 8711 - (365 * 23 + 23 / 4 - 23 / 100) == 311;
    assert (5 * 311 + 2) / 153 == 10;
    assert 311 - (153 * 10 + 2) / 5 + 1 == 6;
  }

  // ---------------------------------------------------------------------
  // Rolling features

  function RollingMeanName(target: string, w: nat): string {
    target + "_rolling_mean_" + NatToString(w)
  }

  function RollingStdName(target: string, w: nat): string {
    target + "_rolling_std_" + NatToString(w)
  }

  /** The numbers among `cells`, in order, skipping the other cells. */
  function Present(cells: seq<Cell>): (vals: seq<real>)
    ensures |vals| <= |cells|
  {
    if cells == [] then []
    else (if cells[0].Num? then [cells[0].x] else []) + Present(cells[1..])
  }

  /** The trailing window of `w` cells that ends at row `i`
      (`rolling(window=w, min_periods=1)`). */
  function Window(cells: seq<Cell>, i: nat, w: nat): seq<Cell>
    requires i < |cells|
  {
    cells[if i + 1 >= w then i + 1 - w else 0..i + 1]
  }

  /** The mean of the numbers present, missing when there are none. */
  function MeanCell(vals: seq<real>): (c: Cell)
    ensures c.Missing? <==> vals == []
  {
    if vals == [] then Missing else Num(Sum(vals) / |vals| as real)
  }

  /** The rolling mean and the rolling sample deviation, with the missing
      deviation of a single value replaced by 0 (`fillna(0)`). The sample
      deviation of two or more numbers is the parameter `std`. */
  function RollingCells(cells: seq<Cell>, i: nat, w: nat, target: string, std: seq<real> -> real): (m: map<string, Cell>)
    requires i < |cells|
    ensures forall c :: c in m <==> c == RollingMeanName(target, w) || c == RollingStdName(target, w)
  {
    var vals := Present(Window(cells, i, w));
    map[RollingMeanName(target, w) := MeanCell(vals),
        RollingStdName(target, w) := Num(if |vals| >= 2 then std(vals) else 0.0)]
  }

  /** One pass of the loop of `extract_rolling_features`: windows longer
      than the frame add nothing. */
  function AddRolling(f: Frame, target: string, w: nat, std: seq<real> -> real): (r: Frame)
    requires WellFormed(f) && target in f.columns
    ensures WellFormed(r) && |r.rows| == |f.rows| && target in r.columns
    ensures forall c :: c in f.columns ==> c in r.columns
    ensures forall i :: 0 <= i < |f.rows| ==> target in r.rows[i] && r.rows[i][target] == f.rows[i][target]
  {
    if |f.rows| >= w then
      var cells := Column(f, target);
      RollingNamesAreNotTarget(target, w);
      Extend(f, [RollingMeanName(target, w), RollingStdName(target, w)],
             seq(|f.rows|, i requires 0 <= i < |f.rows| => RollingCells(cells, i, w, target, std)))
    else f
  }

  lemma {:induction false} RollingNamesAreNotTarget(target: string, w: nat)
    ensures RollingMeanName(target, w) != target && RollingStdName(target, w) != target
  {
    assert |RollingMeanName(target, w)| > |target|;
    assert |RollingStdName(target, w)| > |target|;
  }

  /** The frame after the loop has handled `windows`. */
  function AddRollings(f: Frame, target: string, windows: seq<nat>, std: seq<real> -> real): (r: Frame)
    requires WellFormed(f) && target in f.columns
    ensures WellFormed(r) && |r.rows| == |f.rows| && target in r.columns
    ensures forall c :: c in f.columns ==> c in r.columns
    ensures forall i :: 0 <= i < |f.rows| ==> target in r.rows[i] && r.rows[i][target] == f.rows[i][target]
  {
    if windows == [] then f
    else AddRolling(AddRollings(f, target, windows[..|windows| - 1], std), target, windows[|windows| - 1], std)
  }

  /** `extract_rolling_features`. */
  function RollingFeatures(f: Frame, target: string, windows: seq<nat>, std: seq<real> -> real): (r: Frame)
    requires WellFormed(f)
    requires forall w :: w in windows ==> w >= 1
    ensures WellFormed(r) && |r.rows| == |f.rows| && forall c :: c in f.columns ==> c in r.columns
  {
    if target !in f.columns || Empty(f) then f else AddRollings(f, target, windows, std)
  }

  method ExtractRollingFeatures(f: Frame, target: string, windows: seq<nat>, std: seq<real> -> real) returns (r: Frame)
    requires WellFormed(f)
    requires forall w :: w in windows ==> w >= 1
    ensures r == RollingFeatures(f, target, windows, std)
  {
    if target !in f.columns || Empty(f) {
      return f;
    }
    r := f;
    for k := 0 to |windows|
      invariant r == AddRollings(f, target, windows[..k], std)
    {
      assert windows[..k + 1][..k] == windows[..k];
      if |r.rows| >= windows[k] {
        var cells := Column(r, target);
        RollingNamesAreNotTarget(target, windows[k]);
        r := Extend(r, [RollingMeanName(target, windows[k]), RollingStdName(target, windows[k])],
                    seq(|r.rows|, i requires 0 <= i < |r.rows| => RollingCells(cells, i, windows[k], target, std)));
      }
    }
    assert windows[..|windows|] == windows;
  }

  /** A rolling column is added for a window exactly when the window is no
      longer than the frame; nothing else is added and no row is lost. */
  lemma {:induction false} RollingColumns(f: Frame, target: string, windows: seq<nat>, std: seq<real> -> real, c: string)
    requires WellFormed(f) && target in f.columns
    ensures c in AddRollings(f, target, windows, std).columns <==>
              || c in f.columns
              || exists w :: w in windows && w <= |f.rows| && (c == RollingMeanName(target, w) || c == RollingStdName(target, w))
  {
    if windows != [] {
      var init := windows[..|windows| - 1];
      var w := windows[|windows| - 1];
      RollingColumns(f, target, init, std, c);
      assert forall v :: v in windows <==> v in init || v == w;
    }
  }

  lemma {:induction false} SumOfConstant(vals: seq<real>, v: real)
    requires forall i :: 0 <= i < |vals| ==> vals[i] == v
    ensures Sum(vals) == |vals| as real * v
  {
    if vals != [] {
      SumOfConstant(vals[1..], v);
    }
  }

  /** Averaging equal numbers gives that number back, so a constant fill
      level has a constant rolling mean. */
  lemma {:induction false} MeanCellOfConstant(vals: seq<real>, v: real)
    requires vals != [] && forall i :: 0 <= i < |vals| ==> vals[i] == v
    ensures MeanCell(vals) == Num(v)
  {
    SumOfConstant(vals, v);
  }

  // ---------------------------------------------------------------------
  // Rate features

  const TimeDiffCol := "time_diff_hours"
  const FillChangeCol := "fill_change"
  const FillRateCol := "fill_rate"

  /** `timestamp.diff()` in hours; missing in the first row. */
  function TimeDiffHours(prev: Cell, cur: Cell): (c: Cell) {
    if prev.Stamp? && cur.Stamp? then Num((cur.seconds - prev.seconds) as real / SecondsPerHour as real) else Missing
  }

  /** `target.diff()`; missing in the first row. */
  function Change(prev: Cell, cur: Cell): (c: Cell) {
    if prev.Num? && cur.Num? then Num(cur.x - prev.x) else Missing
  }

  /** `fill_change / time_diff_hours`, with a missing quotient (NaN) and an
      infinite one (a zero time difference) both replaced by 0. */
  function Rate(change: Cell, hours: Cell): (c: Cell)
    ensures c.Num?
    ensures change.Num? && hours.Num? && hours.x != 0.0 ==> c == Num(change.x / hours.x)
    ensures change.Missing? || hours.Missing? || (hours.Num? && hours.x == 0.0) ==> c == Num(0.0)
  {
    if change.Num? && hours.Num? && hours.x != 0.0 then Num(change.x / hours.x) else Num(0.0)
  }

  /** The rate cells of row `i`. The first row has no time difference and
      no change, so a later `dropna` removes it; from the second row on, the
      fill rate is the change per hour, or 0 for readings taken at the same
      instant. */
  function RateCells(f: Frame, target: string, i: nat): (m: map<string, Cell>)
    requires WellFormed(f) && target in f.columns && TimestampCol in f.columns && i < |f.rows|
    ensures forall c :: c in m <==> c in [TimeDiffCol, FillChangeCol, FillRateCol]
    ensures i == 0 ==> m[TimeDiffCol].Missing? && m[FillChangeCol].Missing? && m[FillRateCol] == Num(0.0)
    ensures i > 0 && f.rows[i - 1][TimestampCol].Stamp? && f.rows[i][TimestampCol].Stamp?
            && f.rows[i - 1][target].Num? && f.rows[i][target].Num? ==>
              var dt := (f.rows[i][TimestampCol].seconds - f.rows[i - 1][TimestampCol].seconds) as real / 3600.0;
              var dv := f.rows[i][target].x - f.rows[i - 1][target].x;
              && m[TimeDiffCol] == Num(dt) && m[FillChangeCol] == Num(dv)
              && m[FillRateCol] == Num(if dt != 0.0 then dv / dt else 0.0)
  {
    var hours := if i == 0 then Missing else TimeDiffHours(f.rows[i - 1][TimestampCol], f.rows[i][TimestampCol]);
    var change := if i == 0 then Missing else Change(f.rows[i - 1][target], f.rows[i][target]);
    map[TimeDiffCol := hours, FillChangeCol := change, FillRateCol := Rate(change, hours)]
  }

  /** `extract_rate_features`: frames without the target, empty frames and
      single rows are returned unchanged. Past that guard the function reads
      the timestamp column without checking, so a frame that gets there must
      have one. */
  function RateFeatures(f: Frame, target: string): (r: Frame)
    requires WellFormed(f)
    requires target in f.columns && !Empty(f) && |f.rows| >= 2 ==> TimestampCol in f.columns
    ensures WellFormed(r) && |r.rows| == |f.rows| && forall c :: c in f.columns ==> c in r.columns
    ensures target !in f.columns || Empty(f) || |f.rows| < 2 ==> r == f
  {
    if target !in f.columns || Empty(f) || |f.rows| < 2 then f
    else
      Extend(f, [TimeDiffCol, FillChangeCol, FillRateCol],
             seq(|f.rows|, i requires 0 <= i < |f.rows| => RateCells(f, target, i)))
  }

  /** Every row of the result carries its rate cells, and keeps its other
      cells. */
  lemma {:induction false} RateFeaturesRow(f: Frame, target: string, i: nat, c: string)
    requires WellFormed(f) && TimestampCol in f.columns && target in f.columns
    requires |f.rows| >= 2 && |f.columns| > 0 && i < |f.rows|
    ensures var row := RateFeatures(f, target).rows[i];
            && (c in RateCells(f, target, i) ==> c in row && row[c] == RateCells(f, target, i)[c])
            && (c in f.columns && c !in RateCells(f, target, i) ==> c in row && row[c] == f.rows[i][c])
  {
    var extra := seq(|f.rows|, j requires 0 <= j < |f.rows| => RateCells(f, target, j));
    assert extra[i] == RateCells(f, target, i);
  }

  // ---------------------------------------------------------------------
  // Bin metadata

  /** The bin description handed to the feature engineer. Each field is
      `None` when the key is absent; a present value may itself be missing
      (a `None` in the description). */
  datatype BinInfo = BinInfo(
    binType: Option<string>,
    capacityLiters: Option<Cell>,
    ward: Option<Cell>,
    zone: Option<Option<string>>)

  const ResidentialCol := "bin_type_residential"
  const CommercialCol := "bin_type_commercial"
  const PublicCol := "bin_type_public"
  const CapacityCol := "capacity_liters"
  const WardCol := "ward"
  const ZoneCol := "zone_encoded"

  /** The one-hot code of a bin type; an unknown type is all zeros. */
  function BinTypeCode(t: string): (code: (real, real, real)) {
    if t == "residential" then (1.0, 0.0, 0.0)
    else if t == "commercial" then (0.0, 1.0, 0.0)
    else if t == "public_space" then (0.0, 0.0, 1.0)
    else (0.0, 0.0, 0.0)
  }

  /** The number of a zone; an unknown or missing zone is 0. */
  function ZoneCode(z: Option<string>): (n: real) {
    match z
    case Some("North") => 1.0
    case Some("South") => 2.0
    case Some("East") => 3.0
    case Some("West") => 4.0
    case Some("Central") => 5.0
    case _ => 0.0
  }

  /** The metadata columns in the order the function assigns them. */
  function MetadataNames(info: BinInfo): seq<string> {
    (if info.binType.Some? then [ResidentialCol, CommercialCol, PublicCol] else [])
    + (if info.capacityLiters.Some? then [CapacityCol] else [])
    + (if info.ward.Some? then [WardCol] else [])
    + (if info.zone.Some? then [ZoneCol] else [])
  }

  /** The cells every row gains. */
  function MetadataCells(info: BinInfo): (m: map<string, Cell>)
    ensures forall c :: c in m <==> c in MetadataNames(info)
  {
    var code := if info.binType.Some? then BinTypeCode(info.binType.value) else (0.0, 0.0, 0.0);
    (if info.binType.Some? then map[ResidentialCol := Num(code.0), CommercialCol := Num(code.1), PublicCol := Num(code.2)] else map[])
    + (if info.capacityLiters.Some? then map[CapacityCol := info.capacityLiters.value] else map[])
    + (if info.ward.Some? then map[WardCol := info.ward.value] else map[])
    + (if info.zone.Some? then map[ZoneCol := Num(ZoneCode(info.zone.value))] else map[])
  }

  /** `add_bin_metadata`: the same metadata cells in every row. */
  function BinMetadata(f: Frame, info: BinInfo): (r: Frame)
    requires WellFormed(f)
    ensures WellFormed(r) && |r.rows| == |f.rows|
    ensures forall c :: c in r.columns <==> c in f.columns || c in MetadataNames(info)
  {
    Extend(f, MetadataNames(info), seq(|f.rows|, _ => MetadataCells(info)))
  }

  /** A known bin type sets exactly one of the three one-hot columns, an
      unknown one none of them. */
  lemma {:induction false} BinTypeCodeIsOneHot(t: string)
    ensures var code := BinTypeCode(t);
            && code.0 in {0.0, 1.0} && code.1 in {0.0, 1.0} && code.2 in {0.0, 1.0}
            && (code.0 + code.1 + code.2 == 1.0 <==> t in {"residential", "commercial", "public_space"})
            && (code.0 + code.1 + code.2 == 0.0 <==> t !in {"residential", "commercial", "public_space"})
  {
  }

  /** The five named zones get the distinct codes 1 to 5; anything else
      gets 0. */
  lemma {:induction false} ZoneCodeRange(z: Option<string>)
    ensures 0.0 <= ZoneCode(z) <= 5.0
    ensures ZoneCode(z) == 0.0 <==> !(z.Some? && z.value in {"North", "South", "East", "West", "Central"})
  {
  }

  lemma {:induction false} ZoneCodeInjective(a: string, b: string)
    requires ZoneCode(Some(a)) != 0.0 && ZoneCode(Some(a)) == ZoneCode(Some(b))
    ensures a == b
  {
  }

  /** Every row of the result carries the metadata cells, and the cells of
      other columns are unchanged. */
  lemma {:induction false} BinMetadataRow(f: Frame, info: BinInfo, i: nat, c: string)
    requires WellFormed(f) && i < |f.rows|
    ensures var row := BinMetadata(f, info).rows[i];
            && (c in MetadataNames(info) ==> c in row && row[c] == MetadataCells(info)[c])
            && (c in f.columns && c !in MetadataNames(info) ==> c in row && row[c] == f.rows[i][c])
  {
    var extra := seq(|f.rows|, _ => MetadataCells(info));
    assert extra[i] == MetadataCells(info);
  }

  // ---------------------------------------------------------------------
  // Cleaning the readings

  /** A stored sensor reading; the four measurements may be absent. */
  datatype SensorReading = SensorReading(
    timestamp: int,
    fillLevelPercent: Option<real>,
    weightKg: Option<real>,
    temperatureC: Option<real>,
    batteryPercent: Option<real>)

  const NumericCols := [FillLevelCol, "weight_kg", "temperature_c", "battery_percent"]
  const ReadingCols := [TimestampCol] + NumericCols

  /** The reading columns are five different names. */
  lemma {:induction false} ReadingColsDistinct()
    ensures Distinct(NumericCols) && Distinct(ReadingCols)
  {
    DistinctPairwise(NumericCols);
    DistinctPairwise(ReadingCols);
  }

  function ReadingRow(r: SensorReading): (row: Row)
    ensures forall c :: c in row <==> c in ReadingCols
    ensures row[TimestampCol] == Stamp(r.timestamp)
  {
    map[TimestampCol := Stamp(r.timestamp),
        FillLevelCol := OfOption(r.fillLevelPercent),
        "weight_kg" := OfOption(r.weightKg),
        "temperature_c" := OfOption(r.temperatureC),
        "battery_percent" := OfOption(r.batteryPercent)]
  }

  /** `pd.DataFrame(data)` for the list of reading rows: without rows there
      are no columns either. */
  function ReadingsFrame(rows: seq<Row>): (f: Frame)
    requires forall i, c :: 0 <= i < |rows| ==> (c in rows[i] <==> c in ReadingCols)
    ensures WellFormed(f) && f.rows == rows
    ensures rows != [] ==> f.columns == ReadingCols
  {
    ReadingColsDistinct();
    if rows == [] then Frame([], []) else Frame(ReadingCols, rows)
  }

  /** The sort key of `sort_values('timestamp')`. */
  function StampKey(row: Row): real {
    if TimestampCol in row && row[TimestampCol].Stamp? then row[TimestampCol].seconds as real else 0.0
  }

  /** The first half of `_handle_missing_values` for one column: when the
      column has any value, every gap is filled (forward fill, then linear
      interpolation in both directions, whose values are the parameter
      `fillGap`) and present values stay; a column without any value stays
      empty. */
  function FillGaps(cells: seq<Cell>, fillGap: (seq<Cell>, nat) -> real): (r: seq<Cell>)
    ensures |r| == |cells|
    ensures forall i :: 0 <= i < |cells| && !cells[i].Missing? ==> r[i] == cells[i]
    ensures (exists i :: 0 <= i < |cells| && !cells[i].Missing?) ==> forall i :: 0 <= i < |r| ==> !r[i].Missing?
    ensures (forall i :: 0 <= i < |cells| ==> cells[i].Missing?) ==> r == cells
  {
    if exists i :: 0 <= i < |cells| && !cells[i].Missing? then
      seq(|cells|, i requires 0 <= i < |cells| => if cells[i].Missing? then Num(fillGap(cells, i)) else cells[i])
    else cells
  }

  /** The loop over the numeric columns that exist in the frame. */
  function FillColumns(f: Frame, cols: seq<string>, fillGap: (seq<Cell>, nat) -> real): (r: Frame)
    requires WellFormed(f)
    ensures WellFormed(r) && r.columns == f.columns && |r.rows| == |f.rows|
  {
    if cols == [] then f
    else
      var g := FillColumns(f, cols[..|cols| - 1], fillGap);
      var c := cols[|cols| - 1];
      if c in g.columns then SetColumn(g, c, FillGaps(Column(g, c), fillGap)) else g
  }

  /** `_handle_missing_values`: fill the gaps, then drop the rows that still
      have a missing cell. */
  function HandleMissingValues(f: Frame, fillGap: (seq<Cell>, nat) -> real): (r: Frame)
    requires WellFormed(f)
    ensures WellFormed(r) && r.columns == f.columns
  {
    var g := FillColumns(f, NumericCols, fillGap);
    DropNaWellFormed(g);
    DropNa(g)
  }

  /** After the loop, a listed column holds its filled cells and every other
      column is untouched. */
  lemma {:induction false} FillColumnsCell(f: Frame, cols: seq<string>, fillGap: (seq<Cell>, nat) -> real, i: nat, c: string)
    requires WellFormed(f) && Distinct(cols) && i < |f.rows| && c in f.columns
    ensures var g := FillColumns(f, cols, fillGap);
            c in g.rows[i] && g.rows[i][c] == if c in cols then FillGaps(Column(f, c), fillGap)[i] else f.rows[i][c]
    decreases |cols|
  {
    if cols != [] {
      var init := cols[..|cols| - 1];
      var last := cols[|cols| - 1];
      var g := FillColumns(f, init, fillGap);
      assert forall x :: x in cols <==> x in init || x == last;
      if c == last {
        assert c !in init;
        forall j | 0 <= j < |f.rows| ensures g.rows[j][c] == f.rows[j][c] {
          FillColumnsCell(f, init, fillGap, j, c);
        }
        assert Column(g, c) == Column(f, c);
      } else {
        FillColumnsCell(f, init, fillGap, i, c);
      }
    }
  }

  /** When every measurement has at least one value and the other columns
      (the time) have no gaps, gap filling completes every row and keeps its
      values. */
  lemma {:induction false} FilledRow(f: Frame, fillGap: (seq<Cell>, nat) -> real, i: nat)
    requires WellFormed(f) && i < |f.rows|
    requires forall j, c :: 0 <= j < |f.rows| && c in f.rows[j] && c !in NumericCols ==> !f.rows[j][c].Missing?
    requires forall c :: c in NumericCols && c in f.columns ==> exists j :: 0 <= j < |f.rows| && !f.rows[j][c].Missing?
    ensures var row := FillColumns(f, NumericCols, fillGap).rows[i];
            && Complete(row)
            && forall c :: c in f.rows[i] && !f.rows[i][c].Missing? ==> c in row && row[c] == f.rows[i][c]
  {
    var row := FillColumns(f, NumericCols, fillGap).rows[i];
    ReadingColsDistinct();
    forall c | c in f.columns
      ensures c in row && !row[c].Missing?
      ensures !f.rows[i][c].Missing? ==> row[c] == f.rows[i][c]
    {
      FillColumnsCell(f, NumericCols, fillGap, i, c);
    }
  }

  lemma {:induction false} HandleMissingValuesKeepsRows(f: Frame, fillGap: (seq<Cell>, nat) -> real)
    requires WellFormed(f)
    requires forall j, c :: 0 <= j < |f.rows| && c in f.rows[j] && c !in NumericCols ==> !f.rows[j][c].Missing?
    requires forall c :: c in NumericCols && c in f.columns ==> exists j :: 0 <= j < |f.rows| && !f.rows[j][c].Missing?
    ensures var r := HandleMissingValues(f, fillGap);
            && |r.rows| == |f.rows|
            && forall i, c :: 0 <= i < |f.rows| && c in f.rows[i] && !f.rows[i][c].Missing? ==>
                 c in r.rows[i] && r.rows[i][c] == f.rows[i][c]
  {
    var g := FillColumns(f, NumericCols, fillGap);
    forall i | 0 <= i < |g.rows|
      ensures Complete(g.rows[i])
      ensures forall c :: c in f.rows[i] && !f.rows[i][c].Missing? ==> c in g.rows[i] && g.rows[i][c] == f.rows[i][c]
    {
      FilledRow(f, fillGap, i);
    }
    DropNaOfCompleteFrame(g);
  }

  /** A measurement that no reading has empties the frame: no row survives
      `dropna`. */
  lemma {:induction false} HandleMissingValuesDropsAll(f: Frame, fillGap: (seq<Cell>, nat) -> real, c: string)
    requires WellFormed(f) && c in NumericCols && c in f.columns
    requires forall i :: 0 <= i < |f.rows| ==> f.rows[i][c].Missing?
    ensures HandleMissingValues(f, fillGap).rows == []
  {
    var g := FillColumns(f, NumericCols, fillGap);
    ReadingColsDistinct();
    forall i | 0 <= i < |g.rows| ensures !Complete(g.rows[i]) {
      FillColumnsCell(f, NumericCols, fillGap, i, c);
    }
    FilterNoneTrue(g.rows, Complete);
  }

  /** The outlier threshold, in interquartile ranges. */
  const OutlierThreshold := 3.0

  /** The filter of `_remove_outliers`: inside the bounds, or exactly 0 or
      100. A missing value fails every comparison. */
  function KeepReading(row: Row, column: string, lower: real, upper: real): bool {
    column in row && row[column].Num? &&
      var v := row[column].x;
      (lower <= v <= upper) || v == 0.0 || v == 100.0
  }

  /** `_remove_outliers`: frames without the column or with fewer than four
      rows are returned unchanged; otherwise the rows outside
      [Q1 − 3·IQR, Q3 + 3·IQR] are dropped, except exact 0 and 100.
      `quantile(cells, q)` is the pandas quantile of the column. */
  function RemoveOutliers(f: Frame, column: string, quantile: (seq<Cell>, real) -> real): (r: Frame)
    requires WellFormed(f)
    ensures WellFormed(r) && r.columns == f.columns && IsSubseq(r.rows, f.rows)
    ensures column !in f.columns || |f.rows| < 4 ==> r == f
  {
    if column !in f.columns || |f.rows| < 4 then
      SubseqRefl(f.rows);
      f
    else
      var cells := Column(f, column);
      var q1 := quantile(cells, 0.25);
      var q3 := quantile(cells, 0.75);
      var iqr := q3 - q1;
      var lower := q1 - OutlierThreshold * iqr;
      var upper := q3 + OutlierThreshold * iqr;
      var r := Frame(f.columns, Filter(f.rows, row => KeepReading(row, column, lower, upper)));
      FilterIsSubseq(f.rows, row => KeepReading(row, column, lower, upper));
      assert forall i :: 0 <= i < |r.rows| ==> r.rows[i] in f.rows;
      r
  }

  /** Exact readings of 0 and 100 survive outlier removal whatever the
      quartiles. */
  lemma {:induction false} RemoveOutliersKeepsBounds(f: Frame, column: string, quantile: (seq<Cell>, real) -> real, row: Row)
    requires WellFormed(f) && row in f.rows
    requires column in row && (row[column] == Num(0.0) || row[column] == Num(100.0))
    ensures row in RemoveOutliers(f, column, quantile).rows
  {
    if column in f.columns && |f.rows| >= 4 {
      var cells := Column(f, column);
      var q1 := quantile(cells, 0.25);
      var q3 := quantile(cells, 0.75);
      var lower := q1 - OutlierThreshold * (q3 - q1);
      var upper := q3 + OutlierThreshold * (q3 - q1);
      FilterMembership(f.rows, r => KeepReading(r, column, lower, upper), row);
    }
  }

  /** Past the guard, a row survives exactly when its value lies within
      [Q1 − 3·IQR, Q3 + 3·IQR] or is exactly 0 or 100. */
  lemma {:induction false} RemoveOutliersMembership(f: Frame, column: string, quantile: (seq<Cell>, real) -> real, row: Row)
    requires WellFormed(f) && column in f.columns && |f.rows| >= 4
    ensures var q1 := quantile(Column(f, column), 0.25);
            var q3 := quantile(Column(f, column), 0.75);
            row in RemoveOutliers(f, column, quantile).rows <==>
              row in f.rows && KeepReading(row, column, q1 - OutlierThreshold * (q3 - q1), q3 + OutlierThreshold * (q3 - q1))
  {
    var cells := Column(f, column);
    var q1 := quantile(cells, 0.25);
    var q3 := quantile(cells, 0.75);
    var lower := q1 - OutlierThreshold * (q3 - q1);
    var upper := q3 + OutlierThreshold * (q3 - q1);
    FilterMembership(f.rows, r => KeepReading(r, column, lower, upper), row);
  }

  /** The smoothing window: one row on each side, cut at the ends. */
  function CenteredWindow(cells: seq<Cell>, i: nat): seq<Cell>
    requires i < |cells|
  {
    cells[if i == 0 then 0 else i - 1..if i + 2 <= |cells| then i + 2 else |cells|]
  }

  /** `rolling(window=3, center=True, min_periods=1).mean()`. */
  function CenteredMean(cells: seq<Cell>): (r: seq<Cell>)
    ensures |r| == |cells|
  {
    seq(|cells|, i requires 0 <= i < |cells| => MeanCell(Present(CenteredWindow(cells, i))))
  }

  const SmoothingWindow := 3

  /** `_smooth_readings`: fewer than three rows are left alone; otherwise
      the fill level becomes its centred three-row mean. */
  function SmoothReadings(f: Frame): (r: Frame)
    requires WellFormed(f)
    requires |f.rows| >= SmoothingWindow ==> FillLevelCol in f.columns
    ensures WellFormed(r) && r.columns == f.columns && |r.rows| == |f.rows|
    ensures |f.rows| < SmoothingWindow ==> r == f
  {
    if |f.rows| < SmoothingWindow then f
    else SetColumn(f, FillLevelCol, CenteredMean(Column(f, FillLevelCol)))
  }

  /** A constant fill level is left as it is by smoothing. */
  lemma {:induction false} PresentOfConstant(cells: seq<Cell>, v: real)
    requires forall i :: 0 <= i < |cells| ==> cells[i] == Num(v)
    ensures |Present(cells)| == |cells|
    ensures forall i :: 0 <= i < |cells| ==> Present(cells)[i] == v
  {
    if cells != [] {
      PresentOfConstant(cells[1..], v);
    }
  }

  lemma {:induction false} SmoothReadingsOfConstant(f: Frame, v: real)
    requires WellFormed(f) && FillLevelCol in f.columns
    requires forall i :: 0 <= i < |f.rows| ==> f.rows[i][FillLevelCol] == Num(v)
    ensures forall i :: 0 <= i < |f.rows| ==> SmoothReadings(f).rows[i] == f.rows[i]
  {
    if |f.rows| >= SmoothingWindow {
      var cells := Column(f, FillLevelCol);
      forall i | 0 <= i < |cells| ensures CenteredMean(cells)[i] == Num(v) {
        var w := CenteredWindow(cells, i);
        PresentOfConstant(w, v);
        MeanCellOfConstant(Present(w), v);
      }
      forall i | 0 <= i < |f.rows| ensures SmoothReadings(f).rows[i] == f.rows[i] {
        assert f.rows[i][FillLevelCol := Num(v)] == f.rows[i];
      }
    }
  }

  /** `clean_readings`. */
  function CleanedReadings(readings: seq<SensorReading>, fillGap: (seq<Cell>, nat) -> real,
                           quantile: (seq<Cell>, real) -> real): (f: Frame)
    ensures WellFormed(f)
    ensures readings == [] <==> f == Frame([], [])
    ensures readings != [] ==> f.columns == ReadingCols
  {
    if readings == [] then Frame([], [])
    else
      var rows := seq(|readings|, i requires 0 <= i < |readings| => ReadingRow(readings[i]));
      var sorted := SortBy(rows, StampKey);
      SortedRowsHaveReadingCols(rows, sorted);
      var g := HandleMissingValues(ReadingsFrame(sorted), fillGap);
      SmoothReadings(RemoveOutliers(g, FillLevelCol, quantile))
  }

  lemma {:induction false} SortedRowsHaveReadingCols(rows: seq<Row>, sorted: seq<Row>)
    requires multiset(sorted) == multiset(rows)
    requires forall i, c :: 0 <= i < |rows| ==> (c in rows[i] <==> c in ReadingCols)
    ensures forall i, c :: 0 <= i < |sorted| ==> (c in sorted[i] <==> c in ReadingCols)
  {
    forall i | 0 <= i < |sorted| ensures sorted[i] in rows {
      assert sorted[i] in multiset(sorted);
    }
  }

  /** The cleaned readings come out in timestamp order: they are sorted
      first, the later passes keep a subsequence of the rows, and none of
      them rewrites the timestamp. */
  lemma {:induction false} CleanedReadingsInTimeOrder(readings: seq<SensorReading>, fillGap: (seq<Cell>, nat) -> real,
                                                      quantile: (seq<Cell>, real) -> real)
    ensures SortedBy(CleanedReadings(readings, fillGap, quantile).rows, StampKey)
  {
    if readings != [] {
      var rows := seq(|readings|, i requires 0 <= i < |readings| => ReadingRow(readings[i]));
      var sorted := SortBy(rows, StampKey);
      SortedRowsHaveReadingCols(rows, sorted);
      var df := ReadingsFrame(sorted);
      var g := FillColumns(df, NumericCols, fillGap);
      assert SortedBy(g.rows, StampKey) by {
        SortBySorted(rows, StampKey);
        FilledStampsKept(df, fillGap);
        SameKeysSorted(df.rows, g.rows, StampKey);
      }
      var h := HandleMissingValues(df, fillGap);
      assert SortedBy(h.rows, StampKey) by {
        SubseqSorted(h.rows, g.rows, StampKey);
      }
      var o := RemoveOutliers(h, FillLevelCol, quantile);
      assert SortedBy(o.rows, StampKey) by {
        SubseqSorted(o.rows, h.rows, StampKey);
      }
      assert CleanedReadings(readings, fillGap, quantile) == SmoothReadings(o);
      SmoothingKeepsStamps(o);
      SameKeysSorted(o.rows, SmoothReadings(o).rows, StampKey);
    }
  }

  /** Gap filling touches only the numeric columns, so every row keeps its
      timestamp. */
  lemma FilledStampsKept(df: Frame, fillGap: (seq<Cell>, nat) -> real)
    requires WellFormed(df) && TimestampCol in df.columns
    ensures var g := FillColumns(df, NumericCols, fillGap);
            forall i :: 0 <= i < |df.rows| ==> StampKey(g.rows[i]) == StampKey(df.rows[i])
  {
    ReadingColsDistinct();
    forall i | 0 <= i < |df.rows|
      ensures StampKey(FillColumns(df, NumericCols, fillGap).rows[i]) == StampKey(df.rows[i])
    {
      FillColumnsCell(df, NumericCols, fillGap, i, TimestampCol);
    }
  }

  /** Smoothing rewrites only the fill level, so every row keeps its
      timestamp. */
  lemma SmoothingKeepsStamps(f: Frame)
    requires WellFormed(f)
    requires |f.rows| >= SmoothingWindow ==> FillLevelCol in f.columns
    ensures var r := SmoothReadings(f);
            |r.rows| == |f.rows| && forall i :: 0 <= i < |f.rows| ==> StampKey(r.rows[i]) == StampKey(f.rows[i])
  {
  }

  /** Rows whose keys are those of a sorted sequence, position by position,
      are sorted too. */
  lemma SameKeysSorted(s: seq<Row>, t: seq<Row>, key: Row -> real)
    requires SortedBy(s, key) && |t| == |s|
    requires forall i :: 0 <= i < |s| ==> key(t[i]) == key(s[i])
    ensures SortedBy(t, key)
  {
  }

  /** `_handle_missing_values`, with its loop over the numeric columns. */
  method FillMissing(df: Frame, fillGap: (seq<Cell>, nat) -> real) returns (g: Frame)
    requires WellFormed(df)
    ensures g == HandleMissingValues(df, fillGap)
  {
    g := df;
    for k := 0 to |NumericCols|
      invariant g == FillColumns(df, NumericCols[..k], fillGap)
    {
      assert NumericCols[..k + 1][..k] == NumericCols[..k];
      var c := NumericCols[k];
      if c in g.columns {
        g := SetColumn(g, c, FillGaps(Column(g, c), fillGap));
      }
    }
    assert NumericCols[..|NumericCols|] == NumericCols;
    g := DropNa(g);
  }

  /** `clean_readings`: the loop that collects one row per reading, then
      sorting and the three cleaning passes. */
  method CleanReadings(readings: seq<SensorReading>, fillGap: (seq<Cell>, nat) -> real,
                       quantile: (seq<Cell>, real) -> real) returns (f: Frame)
    ensures f == CleanedReadings(readings, fillGap, quantile)
  {
    var data: seq<Row> := [];
    for k := 0 to |readings|
      invariant data == seq(k, i requires 0 <= i < k => ReadingRow(readings[i]))
    {
      data := data + [ReadingRow(readings[k])];
    }
    if data == [] {
      return Frame([], []);
    }
    assert data == seq(|readings|, i requires 0 <= i < |readings| => ReadingRow(readings[i]));
    var sorted := SortBy(data, StampKey);
    SortedRowsHaveReadingCols(data, sorted);
    var g := FillMissing(ReadingsFrame(sorted), fillGap);
    f := SmoothReadings(RemoveOutliers(g, FillLevelCol, quantile));
  }

  // ---------------------------------------------------------------------
  // Train/test split

  /** Features and target, each cut into a training and a test part. */
  datatype Split = Split(xTrain: Frame, xTest: Frame, yTrain: seq<Cell>, yTest: seq<Cell>)

  /** Every column except the target and the timestamp, in frame order. */
  function FeatureColumns(f: Frame, target: string): (cols: seq<string>)
    ensures forall c :: c in cols ==> c in f.columns && c != target && c != TimestampCol
  {
    Filter(f.columns, c => c != target && c != TimestampCol)
  }

  /** A row cut down to the given columns. */
  function Project(row: Row, cols: seq<string>): (r: Row)
    ensures forall c :: c in r <==> c in cols && c in row
    ensures forall c :: c in r ==> r[c] == row[c]
  {
    map c | c in cols && c in row :: row[c]
  }

  /** `int(n * (1 - test_size))`. */
  function SplitIndex(n: nat, testSize: real): (k: nat)
    requires 0.0 <= testSize <= 1.0
    ensures k <= n
  {
    assert (n as real) * (1.0 - testSize) <= n as real;
    ((n as real) * (1.0 - testSize)).Floor
  }

  /** `create_train_test_split` with `temporal=True`: `None` for an empty
      frame or a missing target; otherwise the first rows train and the
      rest test. */
  function CreateTrainTestSplit(f: Frame, target: string, testSize: real): (r: Option<Split>)
    requires WellFormed(f) && 0.0 <= testSize <= 1.0
    ensures r.None? <==> Empty(f) || target !in f.columns
  {
    if Empty(f) || target !in f.columns then None
    else
      var cols := FeatureColumns(f, target);
      var x := seq(|f.rows|, i requires 0 <= i < |f.rows| => Project(f.rows[i], cols));
      var y := Column(f, target);
      var k := SplitIndex(|f.rows|, testSize);
      Some(Split(Frame(cols, x[..k]), Frame(cols, x[k..]), y[..k], y[k..]))
  }

  /** The training part is the first `int(n·(1 − test_size))` rows and the
      test part the rest: together, in order, they are the whole frame, and
      no row is in both. The features leave out exactly the target and the
      timestamp. */
  lemma {:induction false} TrainTestSplitPartition(f: Frame, target: string, testSize: real)
    requires WellFormed(f) && 0.0 <= testSize <= 1.0
    requires !Empty(f) && target in f.columns
    ensures var s := CreateTrainTestSplit(f, target, testSize).value;
            var k := SplitIndex(|f.rows|, testSize);
            && |s.xTrain.rows| == |s.yTrain| == k
            && |s.xTest.rows| == |s.yTest| == |f.rows| - k
            && s.yTrain + s.yTest == Column(f, target)
            && (forall i :: 0 <= i < k ==> s.xTrain.rows[i] == Project(f.rows[i], FeatureColumns(f, target)))
            && (forall i :: k <= i < |f.rows| ==> s.xTest.rows[i - k] == Project(f.rows[i], FeatureColumns(f, target)))
            && s.xTrain.columns == s.xTest.columns
            && (forall c :: c in s.xTrain.columns <==> c in f.columns && c != target && c != TimestampCol)
  {
    var s := CreateTrainTestSplit(f, target, testSize).value;
    var k := SplitIndex(|f.rows|, testSize);
    var y := Column(f, target);
    assert y[..k] + y[k..] == y;
    forall c ensures c in s.xTrain.columns <==> c in f.columns && c != target && c != TimestampCol {
      FilterMembership(f.columns, c => c != target && c != TimestampCol, c);
    }
  }

  /** With the 20% test share used for training, a frame of at least ten
      rows leaves at least eight training rows. */
  lemma {:induction false} TrainingShareOfTenRows(n: nat)
    requires n >= 10
    ensures SplitIndex(n, 0.2) >= 8
  {
    assert (n as real) * (1.0 - 0.2) >= 8.0;
  }
}
