/**
 * The hull features of `brondgrupperGeoJSON`: wells partitioned by cluster, one polygon
 * feature per cluster of at least three wells whose hull could be built.
 */
module Hulls {
  import opened Wrappers
  import opened Models
  import opened KeyedIndex

  datatype Position = Position(longitude: real, latitude: real)

  /** A GeoJSON polygon: its rings of positions. */
  datatype Polygon = Polygon(rings: seq<seq<Position>>)

  /** What the hull functions return. */
  datatype Geometry = PolygonGeometry(polygon: Polygon) | MultiPolygonGeometry(polygons: seq<Polygon>)

  /**
   * The geometry library, as functions the model does not look into: the diagonal of the
   * bounding box in degrees (`bbox` and `Math.hypot`), `concave` with a maximal edge length
   * in kilometres, and `convex`; the hulls give `None` where the library returns null.
   */
  datatype GeometryKit = GeometryKit(
    spread: seq<Position> -> real,
    concave: (seq<Position>, real) -> Option<Geometry>,
    convex: seq<Position> -> Option<Geometry>)

  /** A polygon feature with its properties `id`, `antal_broende` and `color_index`. */
  datatype HullFeature = HullFeature(geometry: Polygon, id: int, antalBroende: nat, colorIndex: int)

  /** The cluster key: the cluster id, or -1 for wells without one. */
  function ClusterKey(b: Brond): Option<int> {
    Some(b.clusterId.GetOr(-1))
  }

  /**
   * The adaptive maximal hull edge: 0.12 km when the wells do not spread, otherwise eight
   * times the spread clamped to [0.08, 0.2].
   */
  function MaxEdgeKm(spreadDeg: real): (r: real)
    ensures 0.08 <= r <= 0.2
    ensures spreadDeg <= 0.0 ==> r == 0.12
    ensures 0.0 < spreadDeg < 0.01 ==> r == 0.08
    ensures 0.01 <= spreadDeg <= 0.025 ==> r == 8.0 * spreadDeg
    ensures 0.025 < spreadDeg ==> r == 0.2
  {
    if spreadDeg > 0.0 then Min(0.2, Max(0.08, spreadDeg * 8.0)) else 0.12
  }

  function Min(a: real, b: real): real {
    if a <= b then a else b
  }

  function Max(a: real, b: real): real {
    if a >= b then a else b
  }

  /**
   * `clusterId % 12` with JavaScript's remainder, which takes the sign of the dividend: the
   * remainder of the magnitude, negated for a negative id (so -1 gives -1).
   */
  function ColorIndex(id: int): (r: int)
    ensures -12 < r < 12
    ensures (id - r) % 12 == 0
    ensures id >= 0 ==> r >= 0
    ensures id < 0 ==> r <= 0
  {
    if id >= 0 then id % 12 else -((-id) % 12)
  }

  /** The well coordinates as `[longitude, latitude]` points. */
  function Positions(bs: seq<Brond>): seq<Position> {
    seq(|bs|, i requires 0 <= i < |bs| => Position(bs[i].longitude, bs[i].latitude))
  }

  /** `concave(...) || convex(...)`: the concave hull, or the convex one when that fails. */
  function Hull(pts: seq<Position>, maxEdgeKm: real, kit: GeometryKit): Option<Geometry> {
    var c := kit.concave(pts, maxEdgeKm);
    if c.Some? then c else kit.convex(pts)
  }

  /** A multi-polygon is reduced to its first polygon. */
  function AsPolygon(g: Geometry): Polygon {
    match g
    case PolygonGeometry(p) => p
    case MultiPolygonGeometry(ps) => if ps == [] then Polygon([]) else ps[0]
  }

  /** The hull of one cluster, when it has at least three wells and a hull could be built. */
  function ClusterHull(gruppe: seq<Brond>, kit: GeometryKit): Option<Polygon> {
    if |gruppe| < 3 then None
    else
      var pts := Positions(gruppe);
      match Hull(pts, MaxEdgeKm(kit.spread(pts)), kit)
      case None => None
      case Some(g) => Some(AsPolygon(g))
  }

  /** The feature of cluster `k` with wells `gruppe`, if any. */
  function FeatureOf(k: int, gruppe: seq<Brond>, kit: GeometryKit): seq<HullFeature> {
    match ClusterHull(gruppe, kit)
    case None => []
    case Some(p) => [HullFeature(p, k, |gruppe|, ColorIndex(k))]
  }

  /** The features for the clusters `ks`, in that order. */
  function FeaturesFor(bs: seq<Brond>, ks: seq<int>, kit: GeometryKit): seq<HullFeature> {
    if ks == [] then []
    else
      var k := ks[|ks| - 1];
      FeaturesFor(bs, ks[..|ks| - 1], kit) + FeatureOf(k, MembersOf(bs, ClusterKey, k), kit)
  }

  /** All hull features, in the order the clusters first occur. */
  function HullFeatures(bs: seq<Brond>, kit: GeometryKit): seq<HullFeature> {
    FeaturesFor(bs, Keys(bs, ClusterKey), kit)
  }

  /**
   * The body of the loop over the clusters: for three or more wells, the concave hull with
   * the adaptive edge, the convex hull when that fails, and a feature when either succeeds.
   */
  method ClusterFeature(clusterId: int, gruppe: seq<Brond>, kit: GeometryKit) returns (pushed: seq<HullFeature>)
    ensures pushed == FeatureOf(clusterId, gruppe, kit)
    ensures |pushed| <= 1
    ensures |pushed| == 1 ==> |gruppe| >= 3 && pushed[0].antalBroende == |gruppe| && pushed[0].id == clusterId
  {
    pushed := [];
    if |gruppe| >= 3 {
      var pts := Positions(gruppe);
      var maxEdgeKm := MaxEdgeKm(kit.spread(pts));
      var poly := kit.concave(pts, maxEdgeKm);
      if poly.None? {
        poly := kit.convex(pts);
      }
      if poly.Some? {
        var polygonGeom := AsPolygon(poly.value);
        pushed := [HullFeature(polygonGeom, clusterId, |gruppe|, ColorIndex(clusterId))];
      }
    }
  }

  /** The cluster Map-building loop, then the loop over its entries that pushes features. */
  method BrondgrupperGeoJSON(bs: seq<Brond>, kit: GeometryKit) returns (features: seq<HullFeature>)
    ensures features == HullFeatures(bs, kit)
  {
    var keys, grupperByCluster := BuildIndex(bs, ClusterKey);
    features := PushFeatures(bs, keys, grupperByCluster, kit);
  }

  /** The loop over the Map's entries, in insertion order. */
  method PushFeatures(bs: seq<Brond>, keys: seq<int>, grupperByCluster: map<int, seq<Brond>>, kit: GeometryKit)
    returns (features: seq<HullFeature>)
    requires forall k | k in keys :: k in grupperByCluster && grupperByCluster[k] == MembersOf(bs, ClusterKey, k)
    ensures features == FeaturesFor(bs, keys, kit)
  {
    features := [];
    for t := 0 to |keys|
      invariant features == FeaturesFor(bs, keys[..t], kit)
    {
      var clusterId := keys[t];
      var pushed := ClusterFeature(clusterId, grupperByCluster[clusterId], kit);
      FeaturesForStep(bs, keys, t, kit);
      features := features + pushed;
    }
    assert keys[..|keys|] == keys;
  }

  /** The features for one more key are those for the keys before it, then its own. */
  lemma FeaturesForStep(bs: seq<Brond>, ks: seq<int>, t: nat, kit: GeometryKit)
    requires t < |ks|
    ensures FeaturesFor(bs, ks[..t + 1], kit)
         == FeaturesFor(bs, ks[..t], kit) + FeatureOf(ks[t], MembersOf(bs, ClusterKey, ks[t]), kit)
  {
    assert ks[..t + 1][..t] == ks[..t];
  }

  /** Cluster `k` gets a feature: it has at least three wells and its hull could be built. */
  ghost predicate Emitted(bs: seq<Brond>, k: int, kit: GeometryKit) {
    ClusterHull(MembersOf(bs, ClusterKey, k), kit).Some?
  }

  /**
   * A feature that is right for its key: it has at least three wells, as many as carry its
   * key, its key's colour, and the hull of its wells.
   */
  ghost predicate FeatureFits(bs: seq<Brond>, f: HullFeature, kit: GeometryKit) {
    && f.antalBroende >= 3
    && f.antalBroende == Occurrences(bs, ClusterKey, f.id)
    && f.colorIndex == ColorIndex(f.id)
    && Some(f.geometry) == ClusterHull(MembersOf(bs, ClusterKey, f.id), kit)
  }

  /** Cluster `k` yields at most one feature, which carries key `k` and fits it, exactly when it is emitted. */
  lemma FeatureOfFacts(bs: seq<Brond>, k: int, kit: GeometryKit)
    ensures var f := FeatureOf(k, MembersOf(bs, ClusterKey, k), kit);
      && |f| <= 1
      && (|f| == 1 <==> Emitted(bs, k, kit))
      && forall x | x in f :: x.id == k && FeatureFits(bs, x, kit)
  {
  }

  /** Every feature fits its key. */
  lemma {:induction false} FeaturesForProperties(bs: seq<Brond>, ks: seq<int>, kit: GeometryKit)
    ensures forall f | f in FeaturesFor(bs, ks, kit) :: FeatureFits(bs, f, kit)
  {
    if ks != [] {
      var k := ks[|ks| - 1];
      var front := FeaturesFor(bs, ks[..|ks| - 1], kit);
      var f := FeatureOf(k, MembersOf(bs, ClusterKey, k), kit);
      assert FeaturesFor(bs, ks, kit) == front + f;
      FeaturesForProperties(bs, ks[..|ks| - 1], kit);
      FeatureOfFacts(bs, k, kit);
    }
  }

  /** The `id` properties of `fs`, in order. */
  function IdsOf(fs: seq<HullFeature>): seq<int> {
    seq(|fs|, i requires 0 <= i < |fs| => fs[i].id)
  }

  lemma IdsOfAppend(a: seq<HullFeature>, b: seq<HullFeature>)
    ensures IdsOf(a + b) == IdsOf(a) + IdsOf(b)
  {
  }

  /** Cluster `k` contributes its own id when it is emitted, and nothing otherwise. */
  lemma IdsOfFeatureOf(bs: seq<Brond>, k: int, kit: GeometryKit)
    ensures IdsOf(FeatureOf(k, MembersOf(bs, ClusterKey, k), kit)) == if Emitted(bs, k, kit) then [k] else []
  {
  }

  /** A key gets a feature exactly when it is one of `ks` and is emitted. */
  lemma {:induction false} FeaturesForIds(bs: seq<Brond>, ks: seq<int>, kit: GeometryKit)
    ensures forall k :: k in IdsOf(FeaturesFor(bs, ks, kit)) <==> k in ks && Emitted(bs, k, kit)
  {
    if ks != [] {
      var init := ks[..|ks| - 1];
      var k := ks[|ks| - 1];
      assert ks == init + [k];
      var front := FeaturesFor(bs, init, kit);
      var f := FeatureOf(k, MembersOf(bs, ClusterKey, k), kit);
      assert FeaturesFor(bs, ks, kit) == front + f;
      FeaturesForIds(bs, init, kit);
      IdsOfAppend(front, f);
      IdsOfFeatureOf(bs, k, kit);
    }
  }

  /** For distinct keys, no key gets two features. */
  lemma {:induction false} FeaturesForDistinct(bs: seq<Brond>, ks: seq<int>, kit: GeometryKit)
    requires Distinct(ks)
    ensures Distinct(IdsOf(FeaturesFor(bs, ks, kit)))
  {
    if ks != [] {
      var init := ks[..|ks| - 1];
      var k := ks[|ks| - 1];
      assert ks == init + [k];
      assert k !in init;
      var front := FeaturesFor(bs, init, kit);
      var f := FeatureOf(k, MembersOf(bs, ClusterKey, k), kit);
      assert FeaturesFor(bs, ks, kit) == front + f;
      FeaturesForDistinct(bs, init, kit);
      IdsOfAppend(front, f);
      IdsOfFeatureOf(bs, k, kit);
      if Emitted(bs, k, kit) {
        FeaturesForIds(bs, init, kit);
        DistinctSnoc(IdsOf(front), k);
      } else {
        assert IdsOf(front) + [] == IdsOf(front);
      }
    }
  }

  lemma DistinctSnoc(s: seq<int>, k: int)
    requires Distinct(s) && k !in s
    ensures Distinct(s + [k])
  {
  }

  /**
   * `brondgrupperGeoJSON` emits one feature per cluster key (the cluster id, or -1) that has
   * at least three wells and a buildable hull, with `antal_broende` the number of wells
   * under that key and `color_index` the key's colour, and no key twice.
   */
  lemma HullFeaturesFacts(bs: seq<Brond>, kit: GeometryKit)
    ensures forall f | f in HullFeatures(bs, kit) ::
      && f.antalBroende >= 3
      && f.antalBroende == Occurrences(bs, ClusterKey, f.id)
      && f.colorIndex == ColorIndex(f.id)
      && Some(f.geometry) == ClusterHull(MembersOf(bs, ClusterKey, f.id), kit)
    ensures Distinct(IdsOf(HullFeatures(bs, kit)))
    ensures forall k :: k in IdsOf(HullFeatures(bs, kit)) <==> Emitted(bs, k, kit)
  {
    FeaturesForProperties(bs, Keys(bs, ClusterKey), kit);
    FeaturesForIds(bs, Keys(bs, ClusterKey), kit);
    FeaturesForDistinct(bs, Keys(bs, ClusterKey), kit);
    forall k | Emitted(bs, k, kit)
      ensures k in Keys(bs, ClusterKey)
    {
      assert |MembersOf(bs, ClusterKey, k)| >= 3;
    }
  }
}
