/** The predictions page's display values: everything is derived from a
    hash of the selected bin's id, not from a model. */
module PredictionsPage {
  import opened Common

  /** The UTF-16 code units of one character (`split('')` and `charCodeAt`
      work on code units, so a character outside the Basic Multilingual
      Plane contributes its two surrogates). */
  function CodeUnitSum(c: char): (r: nat)
    ensures c as int < 0x1_0000 ==> r == c as int
    ensures c as int >= 0x1_0000 ==> r >= 0xD800 + 0xDC00
  {
    var n := c as int;
    if n < 0x1_0000 then n
    else (0xD800 + (n - 0x1_0000) / 0x400) + (0xDC00 + (n - 0x1_0000) % 0x400)
  }

  /** `binHash`: the sum of the id's character codes. */
  function BinHash(id: string): (h: nat) {
    if id == [] then 0 else CodeUnitSum(id[0]) + BinHash(id[1..])
  }

  /** The hash of a concatenation is the sum of the hashes. */
  lemma {:induction false} BinHashAppend(a: string, b: string)
    ensures BinHash(a + b) == BinHash(a) + BinHash(b)
  {
    if a != [] {
      assert (a + b)[1..] == a[1..] + b;
      BinHashAppend(a[1..], b);
    } else {
      assert a + b == b;
    }
  }

  /** The hash ignores the order of the characters: ids that are
      rearrangements of each other get the same display values. */
  lemma {:induction false} BinHashOrderFree(a: string, b: string)
    requires multiset(a) == multiset(b)
    ensures BinHash(a) == BinHash(b)
    decreases |a|
  {
    if a != [] {
      assert a[0] in multiset(b);
      var k :| 0 <= k < |b| && b[k] == a[0];
      var rest := b[..k] + b[k + 1..];
      assert b == b[..k] + ([b[k]] + b[k + 1..]);
      BinHashAppend(b[..k], [b[k]] + b[k + 1..]);
      BinHashAppend([b[k]], b[k + 1..]);
      BinHashAppend(b[..k], b[k + 1..]);
      assert a == [a[0]] + a[1..];
      assert multiset(a[1..]) == multiset(rest) by {
        calc {
          multiset(a[1..]);
          multiset(a) - multiset{a[0]};
          multiset(b) - multiset{b[k]};
          { assert multiset(b) == multiset(b[..k]) + multiset{b[k]} + multiset(b[k + 1..]); }
          multiset(rest);
        }
      }
      BinHashOrderFree(a[1..], rest);
    } else {
      assert |b| == |multiset(b)| == 0;
    }
  }

  /** `scatterFactor = (binHash * 997) % 100`. */
  function ScatterFactor(id: string): (s: nat)
    ensures s <= 99
    ensures s == (BinHash(id) * 997) % 100
  {
    (BinHash(id) * 997) % 100
  }

  datatype Summary = Summary(predictedWaste: int, highRiskZones: int, peakTime: string, confidence: real)

  datatype ChartPoint = ChartPoint(time: string, predicted: int, actual: int)

  /** The hour shown as the peak time. */
  function PeakHour(s: nat): (h: nat)
    requires s <= 99
    ensures 1 <= h <= 12
  {
    (s / 8) % 12 + 1
  }

  function SummaryFor(s: nat): (r: Summary)
    requires s <= 99
    ensures r.predictedWaste == 3800 + 25 * s && 3800 <= r.predictedWaste <= 6275
    ensures r.highRiskZones == s / 15 && 0 <= r.highRiskZones <= 6
    ensures r.peakTime == NatToString(PeakHour(s)) + ":00 PM"
    ensures 88.0 <= r.confidence < 98.0
  {
    Summary(3800 + s * 25, s / 15, NatToString(PeakHour(s)) + ":00 PM", 88.0 + s as real / 10.0)
  }

  /** The seven chart points: each value is a constant plus one, two or
      three times the scatter factor, the same multiple for both curves, so
      the gap between predicted and actual does not depend on the bin. */
  function ChartFor(s: nat): (r: seq<ChartPoint>)
    ensures |r| == 7
    ensures [r[0].time, r[1].time, r[2].time, r[3].time, r[4].time, r[5].time, r[6].time]
      == ["00:00", "04:00", "08:00", "12:00", "16:00", "20:00", "23:59"]
    ensures forall i :: 0 <= i < 7 ==>
      && r[i].predicted == [90, 50, 180, 320, 250, 130, 100][i] + [1, 1, 2, 3, 2, 1, 1][i] * s
      && r[i].actual == [85, 55, 170, 330, 240, 125, 105][i] + [1, 1, 2, 3, 2, 1, 1][i] * s
    ensures forall i :: 0 <= i < 7 ==> r[i].predicted - r[i].actual == [5, -5, 10, -10, 10, 5, -5][i]
  {
    var r := [
      ChartPoint("00:00", 90 + s, 85 + s),
      ChartPoint("04:00", 50 + s, 55 + s),
      ChartPoint("08:00", 180 + s * 2, 170 + s * 2),
      ChartPoint("12:00", 320 + s * 3, 330 + s * 3),
      ChartPoint("16:00", 250 + s * 2, 240 + s * 2),
      ChartPoint("20:00", 130 + s, 125 + s),
      ChartPoint("23:59", 100 + s, 105 + s)];
    r
  }

  datatype PageState = PageState(summary: Summary, chart: seq<ChartPoint>)

  /** The page's state before any bin is selected. */
  const InitialState := PageState(Summary(4850, 3, "2:00 PM", 94.2), [])

  /** The effect run when the selected bin or the time range changes. */
  function OnSelection(selectedBin: Option<string>, timeRange: string, state: PageState): (r: PageState)
    ensures !TruthyStr(selectedBin) ==> r == state
    ensures TruthyStr(selectedBin) ==>
      r.summary == SummaryFor(ScatterFactor(selectedBin.value)) && r.chart == ChartFor(ScatterFactor(selectedBin.value))
  {
    if !TruthyStr(selectedBin) then state
    else
      var s := ScatterFactor(selectedBin.value);
      PageState(SummaryFor(s), ChartFor(s))
  }

  /** The values depend on the selected bin only: not on the time range and
      not on what was shown before. */
  lemma OnlyTheBinMatters(id: string, range1: string, range2: string, state1: PageState, state2: PageState)
    requires id != ""
    ensures OnSelection(Some(id), range1, state1) == OnSelection(Some(id), range2, state2)
  {
  }

  /** Two ids with the same characters in another order show the same values. */
  lemma RearrangedIdsLookAlike(a: string, b: string, range: string, state: PageState)
    requires a != "" && multiset(a) == multiset(b)
    ensures OnSelection(Some(a), range, state) == OnSelection(Some(b), range, state)
  {
    BinHashOrderFree(a, b);
    assert |b| == |multiset(b)| == |multiset(a)| == |a|;
  }

  datatype ZoneRow = ZoneRow(zone: string, predicted: int, risk: string)

  /** The five zones' shares of the predicted waste; they add up to 1. */
  const ZoneShares: seq<real> := [0.2, 0.15, 0.3, 0.1, 0.25]

  /** `zoneWiseData`: each zone's fixed share of the predicted waste, rounded
      down, with a fixed risk level. */
  function ZoneData(predictedWaste: int): (r: seq<ZoneRow>)
    ensures |r| == 5
    ensures [r[0].zone, r[1].zone, r[2].zone, r[3].zone, r[4].zone] == ["Zone A", "Zone B", "Zone C", "Zone D", "Zone E"]
    ensures [r[0].risk, r[1].risk, r[2].risk, r[3].risk, r[4].risk] == ["high", "medium", "high", "low", "medium"]
    ensures forall i :: 0 <= i < 5 ==>
      r[i].predicted as real <= predictedWaste as real * ZoneShares[i] < r[i].predicted as real + 1.0
  {
    var w := predictedWaste as real;
    [ZoneRow("Zone A", (w * 0.2).Floor, "high"),
     ZoneRow("Zone B", (w * 0.15).Floor, "medium"),
     ZoneRow("Zone C", (w * 0.3).Floor, "high"),
     ZoneRow("Zone D", (w * 0.1).Floor, "low"),
     ZoneRow("Zone E", (w * 0.25).Floor, "medium")]
  }

  /** The zones' predicted amounts, added up. */
  function ZoneTotal(rows: seq<ZoneRow>): int {
    if rows == [] then 0 else rows[0].predicted + ZoneTotal(rows[1..])
  }

  /** Rounding each share down loses less than one unit per zone: the zones
      add up to the predicted waste or at most four less. */
  lemma ZoneDataTotal(predictedWaste: int)
    ensures predictedWaste - 4 <= ZoneTotal(ZoneData(predictedWaste)) <= predictedWaste
  {
    var r := ZoneData(predictedWaste);
    assert r[4..][1..] == [];
    assert ZoneTotal(r[4..]) == r[4].predicted;
    assert ZoneTotal(r[3..]) == r[3].predicted + ZoneTotal(r[3..][1..]) && r[3..][1..] == r[4..];
    assert ZoneTotal(r[2..]) == r[2].predicted + ZoneTotal(r[2..][1..]) && r[2..][1..] == r[3..];
    assert ZoneTotal(r[1..]) == r[1].predicted + ZoneTotal(r[1..][1..]) && r[1..][1..] == r[2..];
    assert ZoneTotal(r) == r[0].predicted + ZoneTotal(r[1..]);
    var w := predictedWaste as real;
    assert w * 0.2 + w * 0.15 + w * 0.3 + w * 0.1 + w * 0.25 == w;
  }

  /** The suggested action for a zone's risk level. */
  function RiskAction(risk: string): (action: string)
    ensures risk == "high" ==> action == "Deploy additional vehicle"
    ensures risk == "medium" ==> action == "Monitor closely"
    ensures risk != "high" && risk != "medium" ==> action == "Standard collection"
  {
    if risk == "high" then "Deploy additional vehicle"
    else if risk == "medium" then "Monitor closely"
    else "Standard collection"
  }
}
