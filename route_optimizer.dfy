/** The collection route planner: a nearest-neighbour tour over the bins to
    collect, starting and ending at a fixed depot. The geodesic distance of
    the source is a foreign call; here it is an arbitrary function `dist`. */
module RouteOptimizer {
  import opened Common

  datatype Point = Point(lat: real, lon: real)

  datatype Bin = Bin(binId: string, latitude: real, longitude: real, binType: string, zone: string)

  /** One entry of `optimized_sequence`. */
  datatype Stop = Stop(sequence: nat, binId: string, latitude: real, longitude: real, binType: string, zone: string)

  datatype RoutePlan = RoutePlan(
    vehicleId: string,
    binsToCollect: seq<string>,
    totalDistanceKm: real,
    estimatedDurationMinutes: real,
    optimizedSequence: seq<Stop>)

  /** The depot every tour starts from and returns to. */
  const Depot := Point(28.6139, 77.2090)

  /** Average speed (km/h) and minutes spent at each bin in the duration estimate. */
  const AverageSpeedKmh := 30.0
  const MinutesPerBin := 5

  function Position(b: Bin): Point {
    Point(b.latitude, b.longitude)
  }

  ghost predicate NonNegative(dist: (Point, Point) -> real) {
    forall p, q :: dist(p, q) >= 0.0
  }

  // ---------------------------------------------------------------------
  // Specification of the greedy choice and the resulting tour

  /** The bin a scan of `bins` with a strict `<` picks from `cur`: a bin of
      minimal distance, the earliest one when several tie. */
  function NearestIndex(cur: Point, bins: seq<Bin>, dist: (Point, Point) -> real): (k: nat)
    requires |bins| > 0
    ensures k < |bins|
  {
    if |bins| == 1 then 0
    else
      var k := NearestIndex(cur, bins[..|bins| - 1], dist);
      if dist(cur, Position(bins[|bins| - 1])) < dist(cur, Position(bins[k])) then |bins| - 1 else k
  }

  /** The picked bin has minimal distance, and every earlier bin is strictly farther. */
  predicate IsFirstNearest(cur: Point, bins: seq<Bin>, k: nat, dist: (Point, Point) -> real) {
    && k < |bins|
    && (forall j :: 0 <= j < |bins| ==> dist(cur, Position(bins[k])) <= dist(cur, Position(bins[j])))
    && (forall j :: 0 <= j < k ==> dist(cur, Position(bins[k])) < dist(cur, Position(bins[j])))
  }

  lemma {:induction false} NearestIndexIsFirstNearest(cur: Point, bins: seq<Bin>, dist: (Point, Point) -> real)
    requires |bins| > 0
    ensures IsFirstNearest(cur, bins, NearestIndex(cur, bins, dist), dist)
  {
    if |bins| > 1 {
      var prefix := bins[..|bins| - 1];
      NearestIndexIsFirstNearest(cur, prefix, dist);
      var k := NearestIndex(cur, prefix, dist);
      assert forall j :: 0 <= j < |prefix| ==> prefix[j] == bins[j];
    }
  }

  function RemoveAt<T>(s: seq<T>, k: nat): (r: seq<T>)
    requires k < |s|
    ensures |r| == |s| - 1
  {
    s[..k] + s[k + 1..]
  }

  lemma RemoveAtMultiset<T>(s: seq<T>, k: nat)
    requires k < |s|
    ensures multiset(RemoveAt(s, k)) == multiset(s) - multiset{s[k]}
  {
    assert s == s[..k] + [s[k]] + s[k + 1..];
  }

  /** The order in which the greedy loop visits `unvisited`, starting at `cur`. */
  function Tour(cur: Point, unvisited: seq<Bin>, dist: (Point, Point) -> real): (route: seq<Bin>)
    decreases |unvisited|
    ensures |route| == |unvisited|
  {
    if unvisited == [] then []
    else
      var k := NearestIndex(cur, unvisited, dist);
      [unvisited[k]] + Tour(Position(unvisited[k]), RemoveAt(unvisited, k), dist)
  }

  /** The length of the legs the greedy loop drives, without the return leg. */
  function TourLegs(cur: Point, unvisited: seq<Bin>, dist: (Point, Point) -> real): real
    decreases |unvisited|
  {
    if unvisited == [] then 0.0
    else
      var k := NearestIndex(cur, unvisited, dist);
      dist(cur, Position(unvisited[k])) + TourLegs(Position(unvisited[k]), RemoveAt(unvisited, k), dist)
  }

  /** Total distance of the closed tour: the legs plus the way back to the depot. */
  function TotalDistance(bins: seq<Bin>, dist: (Point, Point) -> real): real
    requires |bins| > 0
  {
    var route := Tour(Depot, bins, dist);
    TourLegs(Depot, bins, dist) + dist(Position(route[|route| - 1]), Depot)
  }

  function EstimatedDuration(totalDistance: real, binCount: nat): real {
    totalDistance / AverageSpeedKmh * 60.0 + (binCount * MinutesPerBin) as real
  }

  function StopFor(b: Bin, sequence: nat): Stop {
    Stop(sequence, b.binId, b.latitude, b.longitude, b.binType, b.zone)
  }

  /** The plan the planner returns, as a function of its inputs. */
  function PlanFor(vehicleId: string, bins: seq<Bin>, dist: (Point, Point) -> real): RoutePlan {
    if bins == [] then RoutePlan(vehicleId, [], 0.0, 0.0, [])
    else
      var route := Tour(Depot, bins, dist);
      var total := TotalDistance(bins, dist);
      RoutePlan(vehicleId,
                seq(|route|, i requires 0 <= i < |route| => route[i].binId),
                total,
                EstimatedDuration(total, |route|),
                seq(|route|, i requires 0 <= i < |route| => StopFor(route[i], i + 1)))
  }

  // ---------------------------------------------------------------------
  // The planner

  /** The inner scan: the first bin of minimal distance from `cur`. The
      source starts from an infinite minimum, modelled by `nearest == None`. */
  method NearestBin(cur: Point, unvisited: seq<Bin>, dist: (Point, Point) -> real) returns (k: nat, minDistance: real)
    requires |unvisited| > 0
    ensures k == NearestIndex(cur, unvisited, dist)
    ensures minDistance == dist(cur, Position(unvisited[k]))
    ensures IsFirstNearest(cur, unvisited, k, dist)
    ensures forall j :: 0 <= j < k ==> unvisited[j] != unvisited[k]
  {
    var nearest: Option<nat> := None;
    minDistance := 0.0;
    var i := 0;
    while i < |unvisited|
      invariant 0 <= i <= |unvisited|
      invariant i == 0 <==> nearest.None?
      invariant nearest.Some? ==> nearest.value == NearestIndex(cur, unvisited[..i], dist)
      invariant nearest.Some? ==> minDistance == dist(cur, Position(unvisited[nearest.value]))
    {
      var d := dist(cur, Position(unvisited[i]));
      assert unvisited[..i + 1][..i] == unvisited[..i];
      if nearest.None? || d < minDistance {
        minDistance := d;
        nearest := Some(i);
      }
      i := i + 1;
    }
    assert unvisited[..i] == unvisited;
    k := nearest.value;
    NearestIndexIsFirstNearest(cur, unvisited, dist);
  }

  /** One greedy step unfolds the tour and its legs. */
  lemma TourStep(cur: Point, unvisited: seq<Bin>, dist: (Point, Point) -> real)
    requires unvisited != []
    ensures var k := NearestIndex(cur, unvisited, dist);
            var next := Position(unvisited[k]);
            && Tour(cur, unvisited, dist) == [unvisited[k]] + Tour(next, RemoveAt(unvisited, k), dist)
            && TourLegs(cur, unvisited, dist) == dist(cur, next) + TourLegs(next, RemoveAt(unvisited, k), dist)
  {
  }

  /** The `while unvisited` loop: visits every bin, nearest first, and sums
      the legs it drives. */
  method GreedyTour(bins: seq<Bin>, dist: (Point, Point) -> real) returns (route: seq<Bin>, legs: real, current: Point)
    requires bins != []
    ensures route == Tour(Depot, bins, dist)
    ensures legs == TourLegs(Depot, bins, dist)
    ensures |route| == |bins| && current == Position(route[|route| - 1])
  {
    var unvisited := bins;
    route := [];
    current := Depot;
    legs := 0.0;
    while unvisited != []
      invariant route + Tour(current, unvisited, dist) == Tour(Depot, bins, dist)
      invariant legs + TourLegs(current, unvisited, dist) == TourLegs(Depot, bins, dist)
      invariant |route| + |unvisited| == |bins|
      invariant route != [] ==> current == Position(route[|route| - 1])
      decreases |unvisited|
    {
      TourStep(current, unvisited, dist);
      var k, minDistance := NearestBin(current, unvisited, dist);
      var nearestBin := unvisited[k];
      var rest := RemoveAt(unvisited, k);
      assert route + [nearestBin] + Tour(Position(nearestBin), rest, dist) == route + Tour(current, unvisited, dist);
      route := route + [nearestBin];
      legs := legs + minDistance;
      current := Position(nearestBin);
      unvisited := rest;
    }
  }

  /** The `optimized_sequence` loop: one numbered record per routed bin. */
  method BuildSequence(route: seq<Bin>) returns (optimizedSequence: seq<Stop>, binsToCollect: seq<string>)
    ensures optimizedSequence == seq(|route|, i requires 0 <= i < |route| => StopFor(route[i], i + 1))
    ensures binsToCollect == seq(|route|, i requires 0 <= i < |route| => route[i].binId)
  {
    optimizedSequence := [];
    binsToCollect := [];
    for i := 0 to |route|
      invariant |optimizedSequence| == i && |binsToCollect| == i
      invariant forall j :: 0 <= j < i ==> optimizedSequence[j] == StopFor(route[j], j + 1)
      invariant forall j :: 0 <= j < i ==> binsToCollect[j] == route[j].binId
    {
      optimizedSequence := optimizedSequence + [StopFor(route[i], i + 1)];
      binsToCollect := binsToCollect + [route[i].binId];
    }
  }

  /** `optimize_collection_route`. */
  method OptimizeCollectionRoute(vehicleId: string, bins: seq<Bin>, dist: (Point, Point) -> real) returns (plan: RoutePlan)
    ensures plan == PlanFor(vehicleId, bins, dist)
  {
    if bins == [] {
      return RoutePlan(vehicleId, [], 0.0, 0.0, []);
    }
    var route, totalDistance, current := GreedyTour(bins, dist);
    totalDistance := totalDistance + dist(current, Depot);

    var travelTime := totalDistance / AverageSpeedKmh * 60.0;
    var collectionTime := |route| * MinutesPerBin;
    var totalDuration := travelTime + collectionTime as real;

    var optimizedSequence, binsToCollect := BuildSequence(route);
    plan := RoutePlan(vehicleId, binsToCollect, totalDistance, totalDuration, optimizedSequence);
  }

  // ---------------------------------------------------------------------
  // Properties of the plan

  /** An empty bin list gives an empty plan with zero distance and duration. */
  lemma EmptyPlan(vehicleId: string, dist: (Point, Point) -> real)
    ensures PlanFor(vehicleId, [], dist) == RoutePlan(vehicleId, [], 0.0, 0.0, [])
  {
  }

  /** The route visits every input bin exactly as often as it occurs. */
  lemma {:induction false} TourIsPermutation(cur: Point, unvisited: seq<Bin>, dist: (Point, Point) -> real)
    ensures multiset(Tour(cur, unvisited, dist)) == multiset(unvisited)
    decreases |unvisited|
  {
    if unvisited != [] {
      var k := NearestIndex(cur, unvisited, dist);
      TourIsPermutation(Position(unvisited[k]), RemoveAt(unvisited, k), dist);
      RemoveAtMultiset(unvisited, k);
    }
  }

  /** The bins still unvisited before the `i`-th pick. */
  function Remaining(cur: Point, unvisited: seq<Bin>, dist: (Point, Point) -> real, i: nat): (r: seq<Bin>)
    requires i <= |unvisited|
    ensures |r| == |unvisited| - i
    decreases i
  {
    if i == 0 then unvisited
    else
      var k := NearestIndex(cur, unvisited, dist);
      Remaining(Position(unvisited[k]), RemoveAt(unvisited, k), dist, i - 1)
  }

  /** The bins left before the `i`-th pick are the input bins less the
      first `i` picks of the route. */
  lemma {:induction false} RemainingIsInputLessPicks(cur: Point, unvisited: seq<Bin>, dist: (Point, Point) -> real, i: nat)
    requires i <= |unvisited|
    ensures multiset(Remaining(cur, unvisited, dist, i))
              == multiset(unvisited) - multiset(Tour(cur, unvisited, dist)[..i])
    decreases i
  {
    if i > 0 {
      var k := NearestIndex(cur, unvisited, dist);
      var next := Position(unvisited[k]);
      var tail := RemoveAt(unvisited, k);
      var picks := Tour(next, tail, dist)[..i - 1];
      assert multiset(Remaining(cur, unvisited, dist, i)) == multiset(tail) - multiset(picks) by {
        assert Remaining(cur, unvisited, dist, i) == Remaining(next, tail, dist, i - 1);
        RemainingIsInputLessPicks(next, tail, dist, i - 1);
      }
      assert multiset(Tour(cur, unvisited, dist)[..i]) == multiset{unvisited[k]} + multiset(picks) by {
        TourStep(cur, unvisited, dist);
        assert Tour(cur, unvisited, dist)[..i] == [unvisited[k]] + picks;
      }
      assert multiset(tail) == multiset(unvisited) - multiset{unvisited[k]} by {
        RemoveAtMultiset(unvisited, k);
      }
      SubtractInTurn(multiset(unvisited), multiset{unvisited[k]}, multiset(picks));
    }
  }

  /** Taking away one multiset and then another is taking away their sum. */
  lemma SubtractInTurn<T>(all: multiset<T>, first: multiset<T>, rest: multiset<T>)
    ensures all - first - rest == all - (first + rest)
  {
    forall b ensures (all - first - rest)[b] == (all - (first + rest))[b] {
    }
  }

  /** The point the truck stands at before the `i`-th pick. */
  function PositionBefore(cur: Point, route: seq<Bin>, i: nat): Point
    requires i <= |route|
  {
    if i == 0 then cur else Position(route[i - 1])
  }

  /** `b`, picked standing at `here`, is the first bin of minimal distance in `rest`. */
  predicate IsGreedyPick(here: Point, rest: seq<Bin>, b: Bin, dist: (Point, Point) -> real) {
    && rest != []
    && b == rest[NearestIndex(here, rest, dist)]
    && IsFirstNearest(here, rest, NearestIndex(here, rest, dist), dist)
  }

  /** Every pick is a bin of minimal distance among those not yet visited,
      and the earliest such bin in the remaining list. */
  lemma {:induction false} EachPickIsNearest(cur: Point, unvisited: seq<Bin>, dist: (Point, Point) -> real, i: nat)
    requires i < |unvisited|
    ensures IsGreedyPick(PositionBefore(cur, Tour(cur, unvisited, dist), i),
                         Remaining(cur, unvisited, dist, i),
                         Tour(cur, unvisited, dist)[i], dist)
    decreases i
  {
    TourStep(cur, unvisited, dist);
    var k := NearestIndex(cur, unvisited, dist);
    if i == 0 {
      NearestIndexIsFirstNearest(cur, unvisited, dist);
    } else {
      var next := Position(unvisited[k]);
      var tail := RemoveAt(unvisited, k);
      EachPickIsNearest(next, tail, dist, i - 1);
      var route := Tour(cur, unvisited, dist);
      var route' := Tour(next, tail, dist);
      assert route[i] == route'[i - 1];
      RemainingIsInputLessPicks(next, tail, dist, i - 1);
      assert Remaining(cur, unvisited, dist, i) == Remaining(next, tail, dist, i - 1);
      assert PositionBefore(cur, route, i) == PositionBefore(next, route', i - 1);
    }
  }

  /** The sequence records are numbered 1..n in route order, and
      `bins_to_collect` lists the same bins in the same order. */
  lemma SequenceMatchesRoute(vehicleId: string, bins: seq<Bin>, dist: (Point, Point) -> real)
    requires bins != []
    ensures var plan := PlanFor(vehicleId, bins, dist);
            var route := Tour(Depot, bins, dist);
            && |plan.optimizedSequence| == |bins| == |plan.binsToCollect|
            && (forall i :: 0 <= i < |bins| ==>
                  plan.optimizedSequence[i].sequence == i + 1
                  && plan.optimizedSequence[i].binId == plan.binsToCollect[i] == route[i].binId
                  && plan.optimizedSequence[i].latitude == route[i].latitude
                  && plan.optimizedSequence[i].longitude == route[i].longitude)
  {
  }

  lemma {:induction false} TourLegsNonNegative(cur: Point, unvisited: seq<Bin>, dist: (Point, Point) -> real)
    requires NonNegative(dist)
    ensures TourLegs(cur, unvisited, dist) >= 0.0
    decreases |unvisited|
  {
    if unvisited != [] {
      var k := NearestIndex(cur, unvisited, dist);
      TourLegsNonNegative(Position(unvisited[k]), RemoveAt(unvisited, k), dist);
    }
  }

  /** With a non-negative distance the total is non-negative and the duration
      is at least five minutes per bin. */
  lemma PlanBounds(vehicleId: string, bins: seq<Bin>, dist: (Point, Point) -> real)
    requires NonNegative(dist)
    ensures PlanFor(vehicleId, bins, dist).totalDistanceKm >= 0.0
    ensures PlanFor(vehicleId, bins, dist).estimatedDurationMinutes >= (|bins| * MinutesPerBin) as real
  {
    if bins != [] {
      TourLegsNonNegative(Depot, bins, dist);
      }
  }

  /** The tour starts at the depot: the first bin is the one nearest to it,
      and the total counts the leg back to the depot. */
  lemma StartsAndEndsAtDepot(bins: seq<Bin>, dist: (Point, Point) -> real)
    requires bins != []
    ensures var route := Tour(Depot, bins, dist);
            && |route| == |bins|
            && route[0] == bins[NearestIndex(Depot, bins, dist)]
            && TotalDistance(bins, dist) == TourLegs(Depot, bins, dist) + dist(Position(route[|bins| - 1]), Depot)
  {
  }
}
