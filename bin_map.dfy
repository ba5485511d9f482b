/** The bin map: one marker per bin, coloured by fill band, and the popup's
    fill-level colour and rounded percentage. */
module BinMap {
  import opened Common
  import Bins

  datatype Marker = Marker(key: string, latitude: real, longitude: real, color: string, popupColor: string, popupPercent: int)

  /** `Math.round`: the nearest integer, halves rounded up. */
  function JsRound(x: real): (r: int)
    ensures r as real - 0.5 <= x < r as real + 0.5
  {
    (x + 0.5).Floor
  }

  /** `getMarkerIcon`'s colour, applied to `bin.fill_level || 0`. */
  function MarkerColor(fillLevel: Option<real>): (color: string)
    ensures OrZero(fillLevel) >= 80.0 ==> color == Bins.Red
    ensures 60.0 <= OrZero(fillLevel) < 80.0 ==> color == Bins.Amber
    ensures 40.0 <= OrZero(fillLevel) < 60.0 ==> color == Bins.Purple
    ensures OrZero(fillLevel) < 40.0 ==> color == Bins.Green
  {
    var level := OrZero(fillLevel);
    if level >= 80.0 then Bins.Red
    else if level >= 60.0 then Bins.Amber
    else if level >= 40.0 then Bins.Purple
    else Bins.Green
  }

  /** The marker bands are the bins page's bands. */
  lemma MarkerMatchesPage(fillLevel: Option<real>)
    ensures MarkerColor(fillLevel) == Bins.FillLevelColor(OrZero(fillLevel))
  {
  }

  /** The popup colours the fill level red from 80 on and green otherwise; a
      missing level compares false and is green. */
  function PopupColor(fillLevel: Option<real>): (color: string)
    ensures color == Bins.Red <==> fillLevel.Some? && fillLevel.value >= 80.0
    ensures color != Bins.Red ==> color == Bins.Green
  {
    if fillLevel.Some? && fillLevel.value >= 80.0 then Bins.Red else Bins.Green
  }

  /** The popup's percentage: the rounded fill level, or 0 when it is missing. */
  function PopupPercent(fillLevel: Option<real>): (p: int)
    ensures fillLevel.None? ==> p == 0
    ensures fillLevel.Some? ==> p as real - 0.5 <= fillLevel.value < p as real + 0.5
  {
    JsRound(OrZero(fillLevel))
  }

  function MarkerFor(b: Bins.Bin): Marker {
    Marker(b.binId, b.latitude, b.longitude, MarkerColor(b.fillLevel), PopupColor(b.fillLevel), PopupPercent(b.fillLevel))
  }

  /** `bins && bins.map(...)`: no list draws no markers. */
  function Markers(bins: Option<seq<Bins.Bin>>): (r: seq<Marker>)
    ensures bins.None? ==> r == []
    ensures bins.Some? ==> |r| == |bins.value|
    ensures bins.Some? ==> forall i :: 0 <= i < |r| ==>
      r[i].key == bins.value[i].binId
      && r[i].latitude == bins.value[i].latitude && r[i].longitude == bins.value[i].longitude
    ensures bins.Some? ==> forall i :: 0 <= i < |r| ==>
      && r[i].color == Bins.FillLevelColor(OrZero(bins.value[i].fillLevel))
      && r[i].popupColor == PopupColor(bins.value[i].fillLevel)
      && r[i].popupPercent == PopupPercent(bins.value[i].fillLevel)
  {
    match bins
    case None => []
    case Some(s) => seq(|s|, i requires 0 <= i < |s| => MarkerFor(s[i]))
  }

  /** On the bins page every marker is coloured by its bin's current fill
      level exactly as the list view colours it, and its popup never shows a
      missing level. */
  lemma PageMarkersUseCurrentLevel(bins: seq<Bins.Bin>, i: nat)
    requires i < |bins|
    ensures |Markers(Some(Bins.MapBins(bins)))| == |bins|
    ensures Markers(Some(Bins.MapBins(bins)))[i].color == Bins.FillLevelColor(Bins.Level(bins[i]))
    ensures Markers(Some(Bins.MapBins(bins)))[i].popupPercent == JsRound(Bins.Level(bins[i]))
    ensures Markers(Some(Bins.MapBins(bins)))[i].popupColor == Bins.Red <==> Bins.InHighBand(Bins.Level(bins[i]))
  {
    var mapped := Bins.MapBins(bins);
    assert mapped[i].fillLevel == Some(Bins.Level(bins[i]));
    assert Markers(Some(mapped))[i] == MarkerFor(mapped[i]);
  }
}
