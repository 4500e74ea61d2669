/** The latitude/longitude pre-filter of `src/database/spatial.ts`, over exact reals and an
    abstract cosine, and the proof that it never loses a row the exact radius test keeps. */
module Spatial {
  import opened Common

  /** A lower bound for the length of a degree, in metres. */
  const METRES_PER_DEGREE := 110000.0

  datatype Point = Point(lat: real, lng: real)

  /** `lng` is absent when the box reaches a pole or the antimeridian. */
  datatype Box = Box(minLat: real, maxLat: real, lng: Option<(real, real)>)

  function Abs(x: real): real {
    if x < 0.0 then -x else x
  }

  function Max(x: real, y: real): real {
    if x < y then y else x
  }

  function Min(x: real, y: real): real {
    if x < y then x else y
  }

  ghost predicate OnGlobe(p: Point) {
    -90.0 <= p.lat <= 90.0 && -180.0 <= p.lng <= 180.0
  }

  /** All that is used of the cosine of an angle in degrees. */
  ghost predicate IsCosine(cos: real -> real) {
    && (forall x, y :: 0.0 <= x <= y <= 90.0 ==> cos(y) <= cos(x))
    && (forall x :: 0.0 <= x < 90.0 ==> cos(x) > 0.0)
  }

  function FarthestLat(lat: real, radius: real): real {
    var dLat := radius / METRES_PER_DEGREE;
    Max(Abs(Max(lat - dLat, -90.0)), Abs(Min(lat + dLat, 90.0)))
  }

  /** Degrees of longitude that `radius` metres cover at `w` metres to the degree. */
  function LngSpan(w: real, radius: real): (dLng: real)
    requires w > 0.0
    ensures w * dLng == radius
  {
    radius / w
  }

  function BoundingBox(cos: real -> real, centre: Point, radius: real): Box
    requires IsCosine(cos)
  {
    var dLat := radius / METRES_PER_DEGREE;
    var minLat := Max(centre.lat - dLat, -90.0);
    var maxLat := Min(centre.lat + dLat, 90.0);
    var farthest := FarthestLat(centre.lat, radius);
    if farthest >= 89.0 then
      Box(minLat, maxLat, None)
    else
      var dLng := LngSpan(MetresPerLng(cos, farthest), radius);
      if centre.lng - dLng < -180.0 || centre.lng + dLng > 180.0 then
        Box(minLat, maxLat, None)
      else
        Box(minLat, maxLat, Some((centre.lng - dLng, centre.lng + dLng)))
  }

  /** The SQL filter: both bounds are inclusive. */
  predicate InBox(box: Box, p: Point) {
    && box.minLat <= p.lat <= box.maxLat
    && (box.lng.Some? ==> box.lng.value.0 <= p.lng <= box.lng.value.1)
  }

  /** The box, bound by bound: latitude is filtered always, within the poles; longitude exactly if the
      edge farthest from the equator stays below 89 degrees and the span there stays on this side of the
      antimeridian. */
  lemma BoxOutcome(cos: real -> real, centre: Point, radius: real)
    requires IsCosine(cos) && OnGlobe(centre)
    ensures var box, dLat := BoundingBox(cos, centre, radius), radius / 110000.0;
            var edge := if Abs(box.minLat) < Abs(box.maxLat) then Abs(box.maxLat) else Abs(box.minLat);
            && box.minLat == (if centre.lat - dLat < -90.0 then -90.0 else centre.lat - dLat)
            && box.maxLat == (if centre.lat + dLat > 90.0 then 90.0 else centre.lat + dLat)
            && (edge >= 89.0 ==> box.lng.None?)
            && (edge < 89.0 ==>
                  && 110000.0 * cos(edge) > 0.0
                  && var dLng := radius / (110000.0 * cos(edge));
                     if -180.0 <= centre.lng - dLng && centre.lng + dLng <= 180.0
                     then box.lng == Some((centre.lng - dLng, centre.lng + dLng))
                     else box.lng.None?)
  {
    var box := BoundingBox(cos, centre, radius);
    var edge := if Abs(box.minLat) < Abs(box.maxLat) then Abs(box.maxLat) else Abs(box.minLat);
    assert edge == FarthestLat(centre.lat, radius);
  }

  // ----- Distance, as the length of a path of small steps -----

  /** Degrees of longitude between two meridians, the short way round. */
  function LngGap(a: real, b: real): real {
    Min(Abs(a - b), 360.0 - Abs(a - b))
  }

  /** A lower bound for the length of a degree of longitude on a parallel. */
  function MetresPerLng(cos: real -> real, lat: real): real {
    METRES_PER_DEGREE * cos(lat)
  }

  datatype Step = Step(to: Point, cost: real)

  /** `metres` pays for crossing `degrees`, strictly, at `w` metres to the degree. */
  ghost predicate Paid(w: real, degrees: real, metres: real) {
    degrees <= 0.0 || w * degrees < metres
  }

  /** A step is longer than the lower bound allows for the degrees it crosses. At a pole
      longitude is free. */
  ghost predicate ValidStep(cos: real -> real, at: Point, step: Step) {
    var lat := Max(Abs(at.lat), Abs(step.to.lat));
    && OnGlobe(step.to)
    && step.cost >= 0.0
    && Paid(METRES_PER_DEGREE, Abs(at.lat - step.to.lat), step.cost)
    && (lat < 90.0 ==> Paid(MetresPerLng(cos, lat), LngGap(at.lng, step.to.lng), step.cost))
  }

  ghost predicate ValidPath(cos: real -> real, at: Point, path: seq<Step>)
    decreases |path|
  {
    path == [] || (ValidStep(cos, at, path[0]) && ValidPath(cos, path[0].to, path[1..]))
  }

  function End(at: Point, path: seq<Step>): Point {
    if path == [] then at else path[|path| - 1].to
  }

  function Length(path: seq<Step>): real {
    if path == [] then 0.0 else path[0].cost + Length(path[1..])
  }

  lemma {:induction false} LengthNonNegative(cos: real -> real, at: Point, path: seq<Step>)
    requires ValidPath(cos, at, path)
    ensures Length(path) >= 0.0
    decreases |path|
  {
    if path != [] { LengthNonNegative(cos, path[0].to, path[1..]); }
  }

  /** Within `radius` metres: the exact test, as reachability by a path no longer than that. */
  ghost predicate Within(cos: real -> real, centre: Point, p: Point, radius: real) {
    exists path :: ValidPath(cos, centre, path) && End(centre, path) == p && Length(path) <= radius
  }

  /** A path cannot drift in latitude faster than its length allows. */
  lemma {:induction false} LatitudeDrift(cos: real -> real, at: Point, path: seq<Step>)
    requires ValidPath(cos, at, path) && OnGlobe(at)
    ensures METRES_PER_DEGREE * Abs(End(at, path).lat - at.lat) <= Length(path)
    ensures OnGlobe(End(at, path))
    decreases |path|
  {
    if path != [] {
      LatitudeDrift(cos, path[0].to, path[1..]);
    }
  }

  lemma ScaleLess(w: real, x: real, y: real)
    requires w > 0.0
    ensures x <= y <==> w * x <= w * y
    ensures x < y <==> w * x < w * y
  {
    if x < y {
      assert w * (y - x) > 0.0;
    } else {
      assert w * (x - y) >= 0.0;
      if x > y { assert w * (x - y) > 0.0; }
    }
  }

  lemma CheaperIsPaid(w: real, v: real, degrees: real, metres: real)
    requires w <= v && Paid(v, degrees, metres)
    ensures Paid(w, degrees, metres)
  {
    if degrees > 0.0 {
      assert v * degrees - w * degrees == (v - w) * degrees;
    }
  }

  lemma NearerIsPaid(w: real, x: real, y: real, metres: real)
    requires w > 0.0 && x <= y && Paid(w, y, metres)
    ensures Paid(w, x, metres)
  {
    ScaleLess(w, x, y);
  }

  lemma PaidTogether(w: real, x: real, y: real, metres: real, more: real)
    requires x >= 0.0 && y >= 0.0 && metres >= 0.0 && more >= 0.0
    requires Paid(w, x, metres) && Paid(w, y, more)
    ensures Paid(w, x + y, metres + more)
  {
    if x == 0.0 {
      assert w * x == 0.0;
    } else if y == 0.0 {
      assert w * y == 0.0;
    }
    assert w * (x + y) == w * x + w * y;
  }

  /** What `metres` pays for lies within the degrees that `radius` metres cover. */
  lemma PaidIsNear(w: real, dLng: real, degrees: real, metres: real, radius: real)
    requires w > 0.0 && w * dLng == radius && degrees >= 0.0
    requires 0.0 <= metres <= radius && Paid(w, degrees, metres)
    ensures degrees <= dLng
    ensures degrees == dLng ==> degrees == 0.0 && radius == 0.0
  {
    if degrees == 0.0 {
      ScaleLess(w, dLng, 0.0);
      assert w * 0.0 == 0.0;
    } else {
      assert w * degrees < w * dLng;
      ScaleLess(w, degrees, dLng);
    }
  }

  /** Everything reached so far lies in the latitude band of the box. */
  lemma InLatitudeBand(centre: Point, at: Point, spent: real, radius: real)
    requires OnGlobe(centre) && OnGlobe(at)
    requires METRES_PER_DEGREE * Abs(at.lat - centre.lat) <= spent <= radius
    ensures Max(centre.lat - radius / METRES_PER_DEGREE, -90.0) <= at.lat
    ensures at.lat <= Min(centre.lat + radius / METRES_PER_DEGREE, 90.0)
    ensures Abs(at.lat) <= FarthestLat(centre.lat, radius)
  {
    var dLat := radius / METRES_PER_DEGREE;
    assert Abs(at.lat - centre.lat) <= dLat;
  }

  /** `w` metres is less than a degree of longitude costs anywhere in a box that is `dLng`
      degrees wide on either side and does not reach the antimeridian. */
  ghost predicate BoxScale(cos: real -> real, centre: Point, radius: real, w: real, dLng: real) {
    && FarthestLat(centre.lat, radius) < 89.0
    && w > 0.0 && w * dLng == radius
    && -180.0 <= centre.lng - dLng && centre.lng + dLng <= 180.0
    && (forall lat :: 0.0 <= lat <= FarthestLat(centre.lat, radius) ==> w <= MetresPerLng(cos, lat))
  }

  /** `at` lies strictly closer in longitude than `spent` metres pay for, unless it is
      still on the meridian of the centre. */
  ghost predicate LngPaid(w: real, centre: Point, at: Point, spent: real) {
    Paid(w, Abs(at.lng - centre.lng), spent)
  }

  /** Inside the box no parallel is shorter than the one at its edge. */
  lemma StepPaysForGap(cos: real -> real, w: real, dLng: real, centre: Point, at: Point, spent: real, step: Step,
      radius: real)
    requires BoxScale(cos, centre, radius, w, dLng)
    requires OnGlobe(centre) && OnGlobe(at) && ValidStep(cos, at, step)
    requires METRES_PER_DEGREE * Abs(at.lat - centre.lat) <= spent && spent + step.cost <= radius
    ensures Paid(w, LngGap(at.lng, step.to.lng), step.cost)
  {
    InLatitudeBand(centre, at, spent, radius);
    InLatitudeBand(centre, step.to, spent + step.cost, radius);
    CheaperIsPaid(w, MetresPerLng(cos, Max(Abs(at.lat), Abs(step.to.lat))), LngGap(at.lng, step.to.lng), step.cost);
  }

  /** The arithmetic of one step in longitude, with `w` metres to the degree, that goes the
      short way without crossing the antimeridian. */
  lemma PlainStep(w: real, centre: Point, at: Point, step: Step, spent: real)
    requires w > 0.0 && step.cost >= 0.0
    requires LngPaid(w, centre, at, spent) && spent >= 0.0
    requires Paid(w, LngGap(at.lng, step.to.lng), step.cost)
    requires LngGap(at.lng, step.to.lng) == Abs(at.lng - step.to.lng)
    ensures LngPaid(w, centre, step.to, spent + step.cost)
  {
    var near, gap := Abs(at.lng - centre.lng), Abs(at.lng - step.to.lng);
    PaidTogether(w, near, gap, spent, step.cost);
    NearerIsPaid(w, Abs(step.to.lng - centre.lng), near + gap, spent + step.cost);
  }

  /** Going round the antimeridian takes at least the half-width of a box that does not
      reach it. */
  lemma CrossingIsFar(centre: Point, at: Point, to: Point, dLng: real)
    requires OnGlobe(centre) && OnGlobe(at) && OnGlobe(to)
    requires -180.0 <= centre.lng - dLng && centre.lng + dLng <= 180.0
    requires LngGap(at.lng, to.lng) != Abs(at.lng - to.lng)
    ensures var reach := Abs(at.lng - centre.lng) + LngGap(at.lng, to.lng);
            reach >= dLng && (reach == 0.0 ==> Abs(centre.lng) == 180.0)
  {}

  /** Hence it costs more than the radius pays for, except on the seam. */
  lemma CrossingCostsTooMuch(w: real, dLng: real, centre: Point, at: Point, step: Step, spent: real, radius: real)
    requires w > 0.0 && w * dLng == radius && step.cost >= 0.0 && spent >= 0.0
    requires OnGlobe(centre) && OnGlobe(at) && OnGlobe(step.to)
    requires spent + step.cost <= radius
    requires LngPaid(w, centre, at, spent)
    requires Paid(w, LngGap(at.lng, step.to.lng), step.cost)
    requires -180.0 <= centre.lng - dLng && centre.lng + dLng <= 180.0
    requires LngGap(at.lng, step.to.lng) != Abs(at.lng - step.to.lng)
    ensures radius == 0.0 && Abs(centre.lng) == 180.0
  {
    var near, gap := Abs(at.lng - centre.lng), LngGap(at.lng, step.to.lng);
    CrossingIsFar(centre, at, step.to, dLng);
    GapNonNegative(at, step.to);
    PaidTogether(w, near, gap, spent, step.cost);
    PaidIsNear(w, dLng, near + gap, spent + step.cost, radius);
  }

  lemma GapNonNegative(a: Point, b: Point)
    requires OnGlobe(a) && OnGlobe(b)
    ensures LngGap(a.lng, b.lng) >= 0.0
  {}

  lemma LongitudeStep(cos: real -> real, w: real, dLng: real, centre: Point, at: Point, spent: real, step: Step,
      radius: real)
    requires BoxScale(cos, centre, radius, w, dLng)
    requires OnGlobe(centre) && OnGlobe(at) && ValidStep(cos, at, step)
    requires METRES_PER_DEGREE * Abs(at.lat - centre.lat) <= spent && spent + step.cost <= radius
    requires LngPaid(w, centre, at, spent)
    requires !(radius == 0.0 && Abs(centre.lng) == 180.0)
    ensures LngPaid(w, centre, step.to, spent + step.cost)
    ensures METRES_PER_DEGREE * Abs(step.to.lat - centre.lat) <= spent + step.cost
  {
    StepPaysForGap(cos, w, dLng, centre, at, spent, step, radius);
    if LngGap(at.lng, step.to.lng) != Abs(at.lng - step.to.lng) {
      CrossingCostsTooMuch(w, dLng, centre, at, step, spent, radius);
    }
    PlainStep(w, centre, at, step, spent);
  }

  lemma {:induction false} LongitudeDrift(cos: real -> real, w: real, dLng: real, centre: Point, at: Point, spent: real,
                       path: seq<Step>, radius: real)
    requires BoxScale(cos, centre, radius, w, dLng)
    requires OnGlobe(centre) && OnGlobe(at) && ValidPath(cos, at, path)
    requires METRES_PER_DEGREE * Abs(at.lat - centre.lat) <= spent && spent + Length(path) <= radius
    requires LngPaid(w, centre, at, spent)
    requires !(radius == 0.0 && Abs(centre.lng) == 180.0)
    ensures LngPaid(w, centre, End(at, path), spent + Length(path))
    decreases |path|
  {
    if path != [] {
      LengthNonNegative(cos, path[0].to, path[1..]);
      LongitudeStep(cos, w, dLng, centre, at, spent, path[0], radius);
      LongitudeDrift(cos, w, dLng, centre, path[0].to, spent + path[0].cost, path[1..], radius);
    }
  }

  /** The one family of searches for which the box is too small: radius zero on the
      antimeridian, where the same place is stored under two longitudes. */
  predicate OnSeamWithoutRadius(centre: Point, radius: real) {
    radius == 0.0 && Abs(centre.lng) == 180.0 && Abs(centre.lat) < 89.0
  }

  lemma ReachableInLngRange(cos: real -> real, w: real, dLng: real, centre: Point, path: seq<Step>, radius: real)
    requires BoxScale(cos, centre, radius, w, dLng) && OnGlobe(centre)
    requires ValidPath(cos, centre, path) && Length(path) <= radius
    requires !(radius == 0.0 && Abs(centre.lng) == 180.0)
    ensures Abs(End(centre, path).lng - centre.lng) <= dLng
  {
    LongitudeDrift(cos, w, dLng, centre, centre, 0.0, path, radius);
    LengthNonNegative(cos, centre, path);
    PaidIsNear(w, dLng, Abs(End(centre, path).lng - centre.lng), Length(path), radius);
  }

  /** Every branch of the box contains everything the exact test accepts. */
  lemma ReachableIsInBox(cos: real -> real, centre: Point, path: seq<Step>, radius: real)
    requires IsCosine(cos) && OnGlobe(centre)
    requires ValidPath(cos, centre, path) && Length(path) <= radius
    requires !OnSeamWithoutRadius(centre, radius)
    ensures InBox(BoundingBox(cos, centre, radius), End(centre, path))
  {
    LatitudeDrift(cos, centre, path);
    InLatitudeBand(centre, End(centre, path), Length(path), radius);
    if BoundingBox(cos, centre, radius).lng.Some? {
      LengthNonNegative(cos, centre, path);
      var w, dLng := ScaleOfBox(cos, centre, radius);
      ReachableInLngRange(cos, w, dLng, centre, path, radius);
    }
  }

  lemma ScaleOfBox(cos: real -> real, centre: Point, radius: real) returns (w: real, dLng: real)
    requires IsCosine(cos) && OnGlobe(centre) && radius >= 0.0
    requires BoundingBox(cos, centre, radius).lng.Some?
    ensures BoxScale(cos, centre, radius, w, dLng)
    ensures w == MetresPerLng(cos, FarthestLat(centre.lat, radius))
    ensures BoundingBox(cos, centre, radius).lng == Some((centre.lng - dLng, centre.lng + dLng))
  {
    var farthest := FarthestLat(centre.lat, radius);
    w := MetresPerLng(cos, farthest);
    dLng := LngSpan(w, radius);
    forall lat | 0.0 <= lat <= farthest ensures w <= MetresPerLng(cos, lat) { CheaperParallel(cos, lat, farthest); }
  }

  lemma CheaperParallel(cos: real -> real, lat: real, farthest: real)
    requires IsCosine(cos) && 0.0 <= lat <= farthest <= 90.0
    ensures MetresPerLng(cos, farthest) <= MetresPerLng(cos, lat)
  {}

  /** The same place under its other longitude, reached at no cost. */
  lemma SeamIsDropped(cos: real -> real, centre: Point, radius: real) returns (p: Point)
    requires IsCosine(cos) && OnGlobe(centre) && OnSeamWithoutRadius(centre, radius)
    ensures Within(cos, centre, p, radius) && !InBox(BoundingBox(cos, centre, radius), p)
  {
    p := Point(centre.lat, -centre.lng);
    var path := [Step(p, 0.0)];
    assert ValidPath(cos, p, path[1..]);
    assert ValidPath(cos, centre, path);
    assert Length(path) == 0.0 by { assert Length(path[1..]) == 0.0; }
    assert End(centre, path) == p;
  }

  /** The pre-filter is complete exactly off the seam. */
  lemma PrefilterComplete(cos: real -> real, centre: Point, radius: real)
    requires IsCosine(cos) && OnGlobe(centre)
    ensures (forall p :: Within(cos, centre, p, radius) ==> InBox(BoundingBox(cos, centre, radius), p))
            <==> !OnSeamWithoutRadius(centre, radius)
  {
    if OnSeamWithoutRadius(centre, radius) {
      var p := SeamIsDropped(cos, centre, radius);
    } else {
      forall p | Within(cos, centre, p, radius)
        ensures InBox(BoundingBox(cos, centre, radius), p)
      {
        var path :| ValidPath(cos, centre, path) && End(centre, path) == p && Length(path) <= radius;
        ReachableIsInBox(cos, centre, path, radius);
      }
    }
  }

  /** The rows the query returns: box and exact radius, as `findNearby` and `listPool` write it. */
  ghost function Search<K(!new)>(cos: real -> real, incidents: map<K, Point>, centre: Point, radius: real): set<K>
    requires IsCosine(cos)
  {
    set id | id in incidents
             && InBox(BoundingBox(cos, centre, radius), incidents[id])
             && Within(cos, centre, incidents[id], radius)
  }

  /** Off the seam, so for every positive radius, the indexed query answers exactly what a scan
      with the radius test alone would, for every table of incidents. */
  lemma SearchIsExact<K(!new)>(cos: real -> real, incidents: map<K, Point>, centre: Point, radius: real)
    requires IsCosine(cos) && OnGlobe(centre) && !OnSeamWithoutRadius(centre, radius)
    ensures Search(cos, incidents, centre, radius)
         == set id | id in incidents && Within(cos, centre, incidents[id], radius)
  {
    PrefilterComplete(cos, centre, radius);
  }

  lemma BoxIsTightInLng(cos: real -> real, centre: Point, p: Point, radius: real)
    requires IsCosine(cos) && OnGlobe(centre) && radius >= 0.0
    requires BoundingBox(cos, centre, radius).lng.Some? && InBox(BoundingBox(cos, centre, radius), p)
    ensures MetresPerLng(cos, FarthestLat(centre.lat, radius)) * Abs(p.lng - centre.lng) <= radius
  {
    var w, dLng := ScaleOfBox(cos, centre, radius);
    NearIsPaid(w, dLng, Abs(p.lng - centre.lng), radius);
  }

  /** The box is no wider than the lower bound on a degree makes it: what it admits lies
      within `radius` along the meridian and, if there is a longitude filter, along the
      shortest parallel of the box. */
  lemma BoxIsTight(cos: real -> real, centre: Point, p: Point, radius: real)
    requires IsCosine(cos) && OnGlobe(centre) && OnGlobe(p) && radius >= 0.0
    requires var box := BoundingBox(cos, centre, radius); InBox(box, p)
    ensures METRES_PER_DEGREE * Abs(p.lat - centre.lat) <= radius
    ensures BoundingBox(cos, centre, radius).lng.Some? ==>
              MetresPerLng(cos, FarthestLat(centre.lat, radius)) * Abs(p.lng - centre.lng) <= radius
  {
    if BoundingBox(cos, centre, radius).lng.Some? {
      BoxIsTightInLng(cos, centre, p, radius);
    }
  }

  lemma NearIsPaid(w: real, dLng: real, degrees: real, radius: real)
    requires w > 0.0 && w * dLng == radius && degrees <= dLng
    ensures w * degrees <= radius
  {
    ScaleLess(w, degrees, dLng);
  }
}
