/** The feature-importance chart: the first ten features with their ranks,
    the display form of a feature name, and the bar colour. */
module FeatureImportanceChart {
  import opened Common

  datatype Feature = Feature(feature: string, importance: real)

  /** The response object; `features` may be missing. */
  datatype ImportanceData = ImportanceData(features: Option<seq<Feature>>, modelType: string)

  /** A bar: the display name, the importance as a percentage and the 1-based rank. */
  datatype Bar = Bar(feature: string, importancePercent: real, rank: nat)

  datatype ChartView = NoImportanceData | Bars(bars: seq<Bar>)

  const MaxBars := 10

  /** `\w` in a regular expression. */
  predicate IsWordChar(c: char) {
    ('a' <= c <= 'z') || ('A' <= c <= 'Z') || ('0' <= c <= '9') || c == '_'
  }

  /** `/\b\w/g` with `toUpperCase`: the first word character of every run of
      word characters is upper-cased. */
  function CapitaliseWords(s: string): (r: string)
    ensures |r| == |s|
    ensures forall i :: 0 <= i < |s| ==>
      r[i] == (if IsWordChar(s[i]) && (i == 0 || !IsWordChar(s[i - 1])) then UpperChar(s[i]) else s[i])
  {
    var r := seq(|s|, i requires 0 <= i < |s| =>
      if IsWordChar(s[i]) && (i == 0 || !IsWordChar(s[i - 1])) then UpperChar(s[i]) else s[i]);
    assert forall i :: 0 <= i < |s| ==>
      r[i] == (if IsWordChar(s[i]) && (i == 0 || !IsWordChar(s[i - 1])) then UpperChar(s[i]) else s[i]);
    r
  }

  /** `formatFeatureName`: underscores become spaces, words are capitalised,
      and then only the first "Lag" and the first "Rolling" get a hyphen. */
  function FormatFeatureName(name: string): (r: string)
    ensures '_' !in r
  {
    var spaced := ReplaceChar(name, '_', ' ');
    var capitalised := CapitaliseWords(spaced);
    assert '_' !in capitalised by {
      forall i | 0 <= i < |capitalised| ensures capitalised[i] != '_' {
        assert spaced[i] != '_';
      }
    }
    var withLag := ReplaceFirst(capitalised, "Lag", "Lag-");
    ReplaceFirstKeepsOut(capitalised, "Lag", "Lag-", '_');
    ReplaceFirstKeepsOut(withLag, "Rolling", "Rolling-", '_');
    ReplaceFirst(withLag, "Rolling", "Rolling-")
  }

  /** Replacing text that lacks a character never introduces it. */
  lemma ReplaceFirstKeepsOut(s: string, pattern: string, replacement: string, c: char)
    requires c !in s && c !in replacement
    ensures c !in ReplaceFirst(s, pattern, replacement)
  {
    match IndexOf(s, pattern)
    case None =>
    case Some(i) =>
      var r := s[..i] + replacement + s[i + |pattern|..];
      var before, after := s[..i], s[i + |pattern|..];
      assert forall k :: 0 <= k < |before| ==> before[k] in s;
      assert forall k :: 0 <= k < |after| ==> after[k] in s;
  }

  /** A name without "Lag" or "Rolling" keeps its length; the hyphens add one character each. */
  lemma FormattedLength(name: string)
    ensures |FormatFeatureName(name)| == |name|
      + (if Contains(CapitaliseWords(ReplaceChar(name, '_', ' ')), "Lag") then 1 else 0)
      + (if Contains(ReplaceFirst(CapitaliseWords(ReplaceChar(name, '_', ' ')), "Lag", "Lag-"), "Rolling") then 1 else 0)
  {
  }

  /** A name without "Lag" or "Rolling" is only spaced and capitalised. */
  lemma FormattedHour()
    ensures FormatFeatureName("hour") == "Hour"
  {
    assert ReplaceChar("hour", '_', ' ') == "hour";
    assert CapitaliseWords("hour") == "Hour";
    assert !OccursAt("Hour", "Lag", 0) && !OccursAt("Hour", "Lag", 1);
    assert IndexOf("Hour", "Lag").None?;
  }

  /** A lag column gets its hyphen before the space that replaced the underscore. */
  lemma FormattedLag()
    ensures FormatFeatureName("lag_1") == "Lag- 1"
  {
    assert ReplaceChar("lag_1", '_', ' ') == "lag 1";
    assert CapitaliseWords("lag 1") == "Lag 1";
    assert OccursAt("Lag 1", "Lag", 0);
    assert ReplaceFirst("Lag 1", "Lag", "Lag-") == "Lag- 1";
    assert IndexOf("Lag- 1", "Rolling").None?;
  }

  /** `getColor`: above 10 green, above 5 blue, otherwise gray. */
  function BarColor(importance: real): (color: string)
    ensures importance > 10.0 ==> color == "#10B981"
    ensures 5.0 < importance <= 10.0 ==> color == "#3B82F6"
    ensures importance <= 5.0 ==> color == "#6B7280"
  {
    if importance > 10.0 then "#10B981"
    else if importance > 5.0 then "#3B82F6"
    else "#6B7280"
  }

  function BarsFor(features: seq<Feature>): (r: seq<Bar>)
    ensures |r| == if |features| < MaxBars then |features| else MaxBars
    ensures forall i :: 0 <= i < |r| ==>
      r[i] == Bar(FormatFeatureName(features[i].feature), features[i].importance * 100.0, i + 1)
  {
    var n := if |features| < MaxBars then |features| else MaxBars;
    var top := features[..n];
    var r := seq(n, i requires 0 <= i < n => Bar(FormatFeatureName(top[i].feature), top[i].importance * 100.0, i + 1));
    assert forall i :: 0 <= i < n ==> r[i] == Bar(FormatFeatureName(features[i].feature), features[i].importance * 100.0, i + 1);
    r
  }

  /** The component: a placeholder for missing or empty data, otherwise the bars. */
  function Render(data: Option<ImportanceData>): (v: ChartView)
    ensures v.NoImportanceData? <==> data.None? || data.value.features.None? || data.value.features.value == []
    ensures v.Bars? ==> v.bars == BarsFor(data.value.features.value)
  {
    if data.None? || data.value.features.None? || data.value.features.value == [] then NoImportanceData
    else Bars(BarsFor(data.value.features.value))
  }

  /** Features that arrive in descending order of importance are charted in
      that order, the most important with rank 1. */
  lemma BarsKeepDescendingOrder(features: seq<Feature>, i: nat, j: nat)
    requires forall a, b :: 0 <= a < b < |features| ==> features[a].importance >= features[b].importance
    requires i < j < |BarsFor(features)|
    ensures BarsFor(features)[i].importancePercent >= BarsFor(features)[j].importancePercent
    ensures BarsFor(features)[i].rank < BarsFor(features)[j].rank
  {
  }
}
