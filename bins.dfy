/** The bins page: the three list filters (zone, bin type, fill band), the
    fill-level colour bands, the "Showing X of Y" counts and the records
    handed to the map. */
module Bins {
  import opened Common

  /** A bin as the page receives it; `fillLevel` is the extra field the page
      adds before handing the list to the map. */
  datatype Bin = Bin(
    binId: string,
    zone: string,
    binType: string,
    currentFillLevel: Option<real>,
    latitude: real,
    longitude: real,
    status: string,
    fillLevel: Option<real>)

  /** The three select boxes; each holds "all" or a concrete choice. */
  datatype Filters = Filters(zone: string, binType: string, fillLevel: string)

  const All := "all"
  const High := "high"
  const Medium := "medium"
  const Low := "low"

  const Red := "#ef4444"
  const Amber := "#f59e0b"
  const Purple := "#8b5cf6"
  const Green := "#10b981"

  /** `bin.current_fill_level || 0`. */
  function Level(b: Bin): real {
    OrZero(b.currentFillLevel)
  }

  predicate InHighBand(level: real) { level >= 80.0 }
  predicate InMediumBand(level: real) { 40.0 <= level < 80.0 }
  predicate InLowBand(level: real) { level < 40.0 }

  predicate ZoneOk(f: Filters, b: Bin) {
    f.zone == All || b.zone == f.zone
  }

  predicate TypeOk(f: Filters, b: Bin) {
    f.binType == All || b.binType == f.binType
  }

  /** A band name other than high, medium or low filters nothing out. */
  predicate FillOk(f: Filters, b: Bin) {
    if f.fillLevel == High then InHighBand(Level(b))
    else if f.fillLevel == Medium then InMediumBand(Level(b))
    else if f.fillLevel == Low then InLowBand(Level(b))
    else true
  }

  /** One-pass reference for the filters: a bin is shown when it passes all three. */
  predicate Passes(f: Filters, b: Bin) {
    ZoneOk(f, b) && TypeOk(f, b) && FillOk(f, b)
  }

  /** `applyFilters`: narrows a copy of the list one active filter at a time. */
  method ApplyFilters(bins: seq<Bin>, filters: Filters) returns (filtered: seq<Bin>)
    ensures filtered == Filter(bins, b => Passes(filters, b))
    ensures IsSubseq(filtered, bins)
    ensures forall b :: b in filtered <==> b in bins && Passes(filters, b)
  {
    ghost var zoneOk := b => ZoneOk(filters, b);
    ghost var typeOk := b => TypeOk(filters, b);
    ghost var fillOk := b => FillOk(filters, b);
    ghost var zoneTypeOk := b => ZoneOk(filters, b) && TypeOk(filters, b);
    ghost var passes := b => Passes(filters, b);

    filtered := bins;
    if filters.zone != All {
      filtered := Filter(filtered, b => ZoneOk(filters, b));
    } else {
      FilterAllTrue(bins, zoneOk);
    }
    assert filtered == Filter(bins, zoneOk);

    ghost var before := filtered;
    if filters.binType != All {
      filtered := Filter(filtered, b => TypeOk(filters, b));
    } else {
      FilterAllTrue(before, typeOk);
    }
    FilterFilter(bins, zoneOk, typeOk, zoneTypeOk);
    assert filtered == Filter(bins, zoneTypeOk);

    before := filtered;
    if filters.fillLevel != All
      && (filters.fillLevel == High || filters.fillLevel == Medium || filters.fillLevel == Low)
    {
      filtered := Filter(filtered, b => FillOk(filters, b));
    } else {
      FilterAllTrue(before, fillOk);
    }
    FilterFilter(bins, zoneTypeOk, fillOk, passes);

    FilterIsSubseq(bins, passes);
    forall b ensures b in filtered <==> b in bins && Passes(filters, b) {
      FilterMembership(bins, passes, b);
    }
  }

  /** With every select box on "all" the whole list is shown. */
  lemma AllFiltersShowEverything(bins: seq<Bin>)
    ensures Filter(bins, b => Passes(Filters(All, All, All), b)) == bins
  {
    FilterAllTrue(bins, b => Passes(Filters(All, All, All), b));
  }

  /** Every level lies in exactly one of the three bands. */
  lemma BandsAreExclusive(level: real)
    ensures InHighBand(level) || InMediumBand(level) || InLowBand(level)
    ensures !(InHighBand(level) && InMediumBand(level))
    ensures !(InHighBand(level) && InLowBand(level))
    ensures !(InMediumBand(level) && InLowBand(level))
  {
  }

  /** The high, medium and low lists together account for every bin exactly once. */
  lemma {:induction false} BandsPartition(bins: seq<Bin>)
    ensures |Filter(bins, b => InHighBand(Level(b)))|
          + |Filter(bins, b => InMediumBand(Level(b)))|
          + |Filter(bins, b => InLowBand(Level(b)))| == |bins|
  {
    if bins != [] {
      BandsPartition(bins[1..]);
    }
  }

  /** `getFillLevelColor`. */
  function FillLevelColor(level: real): (color: string)
    ensures level >= 80.0 ==> color == Red
    ensures 60.0 <= level < 80.0 ==> color == Amber
    ensures 40.0 <= level < 60.0 ==> color == Purple
    ensures level < 40.0 ==> color == Green
  {
    if level >= 80.0 then Red
    else if level >= 60.0 then Amber
    else if level >= 40.0 then Purple
    else Green
  }

  /** The high band is exactly the red colour. */
  lemma RedIsHighBand(level: real)
    ensures FillLevelColor(level) == Red <==> InHighBand(level)
  {
  }

  /** "Showing X of Y bins". */
  function ShowingCounts(bins: seq<Bin>, filters: Filters): (counts: (nat, nat))
    ensures counts.1 == |bins|
    ensures counts.0 <= counts.1
    ensures filters == Filters(All, All, All) ==> counts.0 == counts.1
  {
    AllFiltersShowEverything(bins);
    (|Filter(bins, b => Passes(filters, b))|, |bins|)
  }

  /** The records handed to the map: each bin with `fill_level` set to its
      current fill level, or 0 when that is missing. */
  function MapBins(bins: seq<Bin>): (r: seq<Bin>)
    ensures |r| == |bins|
    ensures forall i :: 0 <= i < |bins| ==> r[i].fillLevel == Some(Level(bins[i]))
    ensures forall i :: 0 <= i < |bins| ==> r[i].(fillLevel := bins[i].fillLevel) == bins[i]
  {
    if bins == [] then []
    else [bins[0].(fillLevel := Some(Level(bins[0])))] + MapBins(bins[1..])
  }
}
