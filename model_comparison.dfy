/** The model-comparison chart: one bar group per model whose metrics did
    not fail, with display names, defaulted metrics and the recommended flag. */
module ModelComparisonChart {
  import opened Common

  /** One entry of `all_metrics`; a failed model carries `error`. */
  datatype Metrics = Metrics(
    error: Option<string>,
    rmse: Option<real>,
    mae: Option<real>,
    r2Score: Option<real>,
    accuracy5pct: Option<real>)

  /** `all_metrics` in key order, and `recommended_model` (null when absent). */
  datatype ComparisonData = ComparisonData(allMetrics: Option<seq<(string, Metrics)>>, recommendedModel: Option<string>)

  datatype BarGroup = BarGroup(model: string, rmse: real, mae: real, r2Percent: real, accuracy: real, isRecommended: bool)

  datatype ChartView = NoComparisonData | Groups(groups: seq<BarGroup>)

  /** `model.charAt(0).toUpperCase() + model.slice(1)`. */
  function Capitalise(model: string): (r: string)
    ensures |r| == |model|
    ensures model != [] ==> r[0] == UpperChar(model[0]) && r[1..] == model[1..]
  {
    if model == [] then [] else [UpperChar(model[0])] + model[1..]
  }

  /** `!metrics.error`: an empty error text does not count as an error. */
  predicate Succeeded(entry: (string, Metrics)) {
    !TruthyStr(entry.1.error)
  }

  function GroupFor(entry: (string, Metrics), recommended: Option<string>): (g: BarGroup)
    ensures g.model == Capitalise(entry.0)
    ensures g.rmse == OrZero(entry.1.rmse) && g.mae == OrZero(entry.1.mae)
    ensures g.r2Percent == OrZero(entry.1.r2Score) * 100.0 && g.accuracy == OrZero(entry.1.accuracy5pct)
    ensures g.isRecommended <==> recommended == Some(entry.0)
  {
    var (model, m) := entry;
    BarGroup(Capitalise(model), OrZero(m.rmse), OrZero(m.mae), OrZero(m.r2Score) * 100.0, OrZero(m.accuracy5pct),
      recommended.Some? && model == recommended.value)
  }

  function GroupsFor(entries: seq<(string, Metrics)>, recommended: Option<string>): (r: seq<BarGroup>)
    ensures |r| == |Filter(entries, Succeeded)|
    ensures forall i :: 0 <= i < |r| ==> r[i] == GroupFor(Filter(entries, Succeeded)[i], recommended)
  {
    var kept := Filter(entries, Succeeded);
    var r := seq(|kept|, i requires 0 <= i < |kept| => GroupFor(kept[i], recommended));
    assert forall i :: 0 <= i < |kept| ==> r[i] == GroupFor(kept[i], recommended);
    r
  }

  function Render(data: Option<ComparisonData>): (v: ChartView)
    ensures v.NoComparisonData? <==> data.None? || data.value.allMetrics.None?
    ensures v.Groups? ==> v.groups == GroupsFor(data.value.allMetrics.value, data.value.recommendedModel)
  {
    if data.None? || data.value.allMetrics.None? then NoComparisonData
    else Groups(GroupsFor(data.value.allMetrics.value, data.value.recommendedModel))
  }

  /** Keys of an object are distinct. */
  predicate DistinctKeys(entries: seq<(string, Metrics)>) {
    forall i, j :: 0 <= i < j < |entries| ==> entries[i].0 != entries[j].0
  }

  /** Filtering keeps keys distinct. */
  lemma {:induction false} FilterKeepsKeysDistinct(entries: seq<(string, Metrics)>)
    requires DistinctKeys(entries)
    ensures DistinctKeys(Filter(entries, Succeeded))
  {
    if entries != [] {
      assert DistinctKeys(entries[1..]) by {
        forall i, j | 0 <= i < j < |entries[1..]| ensures entries[1..][i].0 != entries[1..][j].0 {
          assert entries[1..][i] == entries[i + 1] && entries[1..][j] == entries[j + 1];
        }
      }
      FilterKeepsKeysDistinct(entries[1..]);
      var rest := Filter(entries[1..], Succeeded);
      if Succeeded(entries[0]) {
        forall k | 0 <= k < |rest| ensures rest[k].0 != entries[0].0 {
          assert rest[k] in entries[1..];
        }
      }
    }
  }

  /** Since object keys are distinct, at most one bar group is flagged as recommended. */
  lemma AtMostOneRecommended(entries: seq<(string, Metrics)>, recommended: Option<string>, i: nat, j: nat)
    requires DistinctKeys(entries)
    requires i < j < |GroupsFor(entries, recommended)|
    ensures !(GroupsFor(entries, recommended)[i].isRecommended && GroupsFor(entries, recommended)[j].isRecommended)
  {
    FilterKeepsKeysDistinct(entries);
  }

  /** A failed model never gets a bar group; every model that did not fail does. */
  lemma FailedModelsAreDropped(entries: seq<(string, Metrics)>, recommended: Option<string>, entry: (string, Metrics))
    requires entry in entries
    ensures entry in Filter(entries, Succeeded) <==> Succeeded(entry)
    ensures Succeeded(entry) ==> GroupFor(entry, recommended) in GroupsFor(entries, recommended)
  {
    FilterMembership(entries, Succeeded, entry);
    if entry in Filter(entries, Succeeded) {
      var kept := Filter(entries, Succeeded);
      var k :| 0 <= k < |kept| && kept[k] == entry;
      assert GroupsFor(entries, recommended)[k] == GroupFor(entry, recommended);
    }
  }
}
