/**
  The segment sampler of ElevationProfile (`_calcPointsAsync`,
  `_collectAllPoints`, `_collectCoordsBetweenTwoTrackPoints`,
  `_getGroundElevation`): the synchronous part of a profile collection,
  which lays out the track entries and the ground slots and issues one
  height query per ground slot.

  Ellipsoid geometry is not modelled: each segment between consecutive
  waypoints arrives with its tangent-plane projected length `projLen` and
  the heights of the interpolated track points that `cartesianToLonLat`
  would return for its interior samples. The chord length, which only
  scales the geometry, is not carried.
 */
module Sampler {
  import opened Classifier
  import opened Ranges

  /** Distance between query points on the ground */
  const SEGMENT_LENGTH: real := 1.0

  datatype Segment = Segment(projLen: real, interiorHeights: seq<real>)

  /** The input polyline: one height per waypoint and one segment between
      each consecutive pair. */
  datatype Track = Track(heights: seq<real>, segments: seq<Segment>)

  /** `Math.floor(projLen / SEGMMENT_LENGTH)`: the number of interior samples
      of a segment. */
  function InternalPoints(projLen: real): (k: nat)
    requires projLen >= 0.0
    ensures k as real * SEGMENT_LENGTH <= projLen < (k + 1) as real * SEGMENT_LENGTH
  {
    (projLen / SEGMENT_LENGTH).Floor
  }

  /** What the geometry guarantees of a segment: a projected length is never
      negative, and one interpolated point exists per interior sample, that
      is, per whole metre of projected length. */
  predicate ValidSegment(seg: Segment) {
    && seg.projLen >= 0.0
    && |seg.interiorHeights| as real * SEGMENT_LENGTH <= seg.projLen
    && seg.projLen < (|seg.interiorHeights| + 1) as real * SEGMENT_LENGTH
  }

  /** The interior count of a valid segment is exactly the floor the source
      computes, and any segment carrying that many points is valid. */
  lemma InteriorCountIsFloor(seg: Segment)
    requires seg.projLen >= 0.0
    ensures ValidSegment(seg) <==> |seg.interiorHeights| == InternalPoints(seg.projLen)
  {
    if ValidSegment(seg) {
      WindowUnique(seg.projLen, |seg.interiorHeights|, InternalPoints(seg.projLen));
    }
  }

  /** At most one whole number of metres fits below a length with less than
      a metre to spare. */
  lemma WindowUnique(x: real, n: int, k: int)
    requires n as real * SEGMENT_LENGTH <= x < (n + 1) as real * SEGMENT_LENGTH
    requires k as real * SEGMENT_LENGTH <= x < (k + 1) as real * SEGMENT_LENGTH
    ensures n == k
  {
    assert n as real < (k + 1) as real && k as real < (n + 1) as real;
  }

  predicate ValidTrack(t: Track) {
    && |t.heights| >= 1
    && |t.segments| == |t.heights| - 1
    && forall i :: 0 <= i < |t.segments| ==> ValidSegment(t.segments[i])
  }

  /** A `_pTrackCoords` entry `[distance, height]`. */
  datatype TrackPoint = TrackPoint(dist: real, height: real)

  /** A height query: the ground slot it writes and the track height
      (`ll.height`) it carries; boundary queries come from
      `_getGroundElevation`, interior ones from the segment loop. */
  datatype Query = Query(index: nat, height: real, boundary: bool)

  /** The collection accumulators: `_pDist`, `_pIndex`, `_pMinY`/`_pMaxY`,
      `_pTrackCoords`, `_pGroundCoords` and the queries in `_promiseArr`. */
  datatype Acc = Acc(
    dist: real,
    index: nat,
    range: Range,
    track: seq<TrackPoint>,
    ground: seq<GroundPoint>,
    queries: seq<Query>)

  /** The interior slots of a segment that starts at distance `d`. */
  function InteriorSlots(d: real, k: nat): (r: seq<GroundPoint>)
    ensures |r| == k
    ensures forall j :: 0 <= j < k ==> r[j] == Placeholder(d + (j + 1) as real * SEGMENT_LENGTH)
    decreases k
  {
    if k == 0 then [] else InteriorSlots(d, k - 1) + [Placeholder(d + k as real * SEGMENT_LENGTH)]
  }

  /** The interior queries of a segment whose boundary slot is `index`. */
  function InteriorQueries(index: nat, hs: seq<real>): (r: seq<Query>)
    ensures |r| == |hs|
    ensures forall j :: 0 <= j < |hs| ==> r[j] == Query(index + j + 1, hs[j], false)
    decreases |hs|
  {
    if |hs| == 0 then [] else InteriorQueries(index, hs[..|hs| - 1]) + [Query(index + |hs|, hs[|hs| - 1], false)]
  }

  /** The accumulators before the first segment (`_calcPointsAsync`). The
      ground array is empty here: the placeholder the source pre-seeds at
      index 0 is overwritten by the first boundary query. */
  function Initial(h0: real): Acc {
    Acc(0.0, 0, Range(h0, h0), [TrackPoint(0.0, h0)], [], [])
  }

  /** One iteration of `_collectAllPoints`: the boundary query of the
      departure waypoint, the interior samples, the residual distance, and
      the arrival waypoint's track entry. */
  function SegmentStep(a: Acc, seg: Segment, h0: real, h1: real): (r: Acc)
    requires ValidSegment(seg)
    // distance grows by exactly the projected length, residual included
    ensures r.dist == a.dist + seg.projLen
    // the slot index grows by the interior count plus the boundary slot
    ensures r.index == a.index + |seg.interiorHeights| + 1
    ensures |r.ground| == |a.ground| + |seg.interiorHeights| + 1
    ensures |r.queries| == |a.queries| + |seg.interiorHeights| + 1
    // a degenerate segment contributes its boundary slot and nothing else
    ensures seg.projLen == 0.0 ==> r.dist == a.dist && |r.ground| == |a.ground| + 1
    // the departure waypoint's slot at the running distance, with its query
    ensures r.ground[|a.ground|] == Placeholder(a.dist)
    ensures r.queries[|a.queries|] == Query(a.index, h0, true)
    ensures r.track == a.track + [TrackPoint(a.dist + seg.projLen, h1)]
    ensures r.range == Range(Min(a.range.lo, h1), Max(a.range.hi, h1))
  {
    var k := |seg.interiorHeights|;
    var d := a.dist + k as real * SEGMENT_LENGTH + (seg.projLen - k as real * SEGMENT_LENGTH);
    Acc(
      d,
      a.index + k + 1,
      Range(Min(a.range.lo, h1), Max(a.range.hi, h1)),
      a.track + [TrackPoint(d, h1)],
      a.ground + [Placeholder(a.dist)] + InteriorSlots(a.dist, k),
      a.queries + [Query(a.index, h0, true)] + InteriorQueries(a.index, seg.interiorHeights))
  }

  /** The slots and queries one segment appends: earlier ones untouched,
      then the boundary slot at the running distance and one interior slot
      per metre after it, each query carrying its slot's index offset and
      its interpolated height. */
  lemma SegmentStepLayout(a: Acc, seg: Segment, h0: real, h1: real)
    requires ValidSegment(seg)
    ensures var r := SegmentStep(a, seg, h0, h1);
      && (forall x :: 0 <= x < |a.ground| ==> r.ground[x] == a.ground[x])
      && (forall x :: 0 <= x < |a.queries| ==> r.queries[x] == a.queries[x])
      && (forall j :: |a.ground| < j < |r.ground| ==>
            r.ground[j] == Placeholder(a.dist + (j - |a.ground|) as real * SEGMENT_LENGTH))
      && (forall j :: |a.queries| < j < |r.queries| ==>
            r.queries[j] == Query(a.index + (j - |a.queries|), seg.interiorHeights[j - |a.queries| - 1], false))
  {
    var r := SegmentStep(a, seg, h0, h1);
    var k := |seg.interiorHeights|;
    assert r.ground == a.ground + [Placeholder(a.dist)] + InteriorSlots(a.dist, k);
    assert r.queries == a.queries + [Query(a.index, h0, true)] + InteriorQueries(a.index, seg.interiorHeights);
  }

  /** Sum of the projected lengths of the first `i` segments. */
  function DistBefore(t: Track, i: nat): real
    requires i <= |t.segments|
  {
    if i == 0 then 0.0 else DistBefore(t, i - 1) + t.segments[i - 1].projLen
  }

  /** Sum of `Math.floor(projLen)` over the first `i` segments. */
  function InteriorBefore(t: Track, i: nat): (n: nat)
    requires ValidTrack(t) && i <= |t.segments|
    ensures forall j :: 0 <= j <= i ==> InteriorBefore(t, j) <= n
  {
    if i == 0 then 0 else InteriorBefore(t, i - 1) + |t.segments[i - 1].interiorHeights|
  }

  /** Number of ground slots laid out for the first `i` segments: one
      boundary slot and the interior slots of each. */
  function SlotsBefore(t: Track, i: nat): nat
    requires ValidTrack(t) && i <= |t.segments|
  {
    i + InteriorBefore(t, i)
  }

  /** The accumulators after the first `m` iterations of `_collectAllPoints`. */
  function After(t: Track, m: nat): (a: Acc)
    requires ValidTrack(t) && m <= |t.segments|
    ensures a.dist == DistBefore(t, m)
    ensures a.index == |a.ground| == |a.queries| == SlotsBefore(t, m)
    ensures |a.track| == m + 1
  {
    if m == 0 then Initial(t.heights[0])
    else SegmentStep(After(t, m - 1), t.segments[m - 1], t.heights[m - 1], t.heights[m])
  }

  /** The final `_getGroundElevation` call on the last waypoint. */
  function Finish(a: Acc, hLast: real): Acc {
    a.(ground := a.ground + [Placeholder(a.dist)], queries := a.queries + [Query(a.index, hLast, true)])
  }

  /** Everything `_calcPointsAsync` lays out before any height arrives. */
  function Sample(t: Track): Acc
    requires ValidTrack(t)
  {
    Finish(After(t, |t.segments|), t.heights[|t.heights| - 1])
  }

  /** JavaScript `arr[i] = v` with `i <= arr.length`: overwrite or append. */
  function WriteSlot<T>(s: seq<T>, i: nat, v: T): (r: seq<T>)
    requires i <= |s|
    ensures |r| == if i < |s| then |s| else |s| + 1
    ensures r[i] == v
    ensures forall k :: 0 <= k < |s| && k != i ==> r[k] == s[k]
  {
    if i < |s| then s[i := v] else s + [v]
  }

  /** `_collectCoordsBetweenTwoTrackPoints`: `k` interior slots, each one
      metre past the previous, each with its query. The geometry arguments
      are replaced by the interpolated heights `hs`. */
  method CollectCoordsBetweenTwoTrackPoints(k: nat, hs: seq<real>, dist0: real, index0: nat, ground0: seq<GroundPoint>, queries0: seq<Query>)
    returns (dist: real, index: nat, ground: seq<GroundPoint>, queries: seq<Query>)
    requires |hs| == k && index0 + 1 == |ground0|
    ensures dist == dist0 + k as real * SEGMENT_LENGTH
    ensures index == index0 + k
    ensures ground == ground0 + InteriorSlots(dist0, k)
    ensures queries == queries0 + InteriorQueries(index0, hs)
  {
    dist, index, ground, queries := dist0, index0, ground0, queries0;
    var j := 1;
    while j <= k
      invariant 1 <= j <= k + 1
      invariant dist == dist0 + (j - 1) as real * SEGMENT_LENGTH
      invariant index == index0 + j - 1
      invariant ground == ground0 + InteriorSlots(dist0, j - 1)
      invariant queries == queries0 + InteriorQueries(index0, hs[..j - 1])
    {
      dist := dist + SEGMENT_LENGTH;
      index := index + 1;
      ground := WriteSlot(ground, index, Placeholder(dist));
      queries := queries + [Query(index, hs[j - 1], false)];
      assert InteriorSlots(dist0, j) == InteriorSlots(dist0, j - 1) + [Placeholder(dist)];
      assert hs[..j][..j - 1] == hs[..j - 1];
      assert InteriorQueries(index0, hs[..j]) == InteriorQueries(index0, hs[..j - 1]) + [Query(index, hs[j - 1], false)];
      j := j + 1;
    }
    assert hs[..k] == hs;
  }

  /** One iteration of the `_collectAllPoints` loop on the accumulators `a`
      whose ground array is currently `ground`: the same array, except
      before the first segment, where the source has pre-seeded the
      placeholder that the first boundary query overwrites. */
  method CollectSegment(a: Acc, ground: seq<GroundPoint>, seg: Segment, h0: real, h1: real) returns (r: Acc)
    requires ValidSegment(seg) && a.index == |a.ground|
    requires ground == a.ground || (a.ground == [] && ground == [Placeholder(a.dist)])
    ensures r == SegmentStep(a, seg, h0, h1)
  {
    var k := InternalPoints(seg.projLen);
    InteriorCountIsFloor(seg);
    // _getGroundElevation(lonlat0)
    var g := WriteSlot(ground, a.index, Placeholder(a.dist));
    var queries := a.queries + [Query(a.index, h0, true)];
    assert g == a.ground + [Placeholder(a.dist)];
    var dist, index;
    dist, index, g, queries := CollectCoordsBetweenTwoTrackPoints(k, seg.interiorHeights, a.dist, a.index, g, queries);
    dist := dist + (seg.projLen - k as real * SEGMENT_LENGTH);
    index := index + 1;
    var hi := a.range.hi;
    var lo := a.range.lo;
    if h1 > hi { hi := h1; }
    if h1 < lo { lo := h1; }
    // `_pTrackCoords[i] = [_pDist, elv]` appends: the array holds i entries
    r := Acc(dist, index, Range(lo, hi), a.track + [TrackPoint(dist, h1)], g, queries);
  }

  /** `_calcPointsAsync` as the source writes it, loops and in-place slot
      writes included; it lays out exactly what `Sample` describes. */
  method CalcPoints(t: Track) returns (r: Acc)
    requires ValidTrack(t)
    ensures r == Sample(t)
  {
    var a := Initial(t.heights[0]);
    var ground := [Placeholder(0.0)];
    var i := 1;
    while i < |t.heights|
      invariant 1 <= i <= |t.heights|
      invariant a == After(t, i - 1)
      invariant i == 1 ==> ground == [Placeholder(0.0)]
      invariant i > 1 ==> ground == a.ground
    {
      a := CollectSegment(a, ground, t.segments[i - 1], t.heights[i - 1], t.heights[i]);
      ground := a.ground;
      i := i + 1;
    }
    // _getGroundElevation on the last waypoint
    ground := WriteSlot(ground, a.index, Placeholder(a.dist));
    r := a.(ground := ground, queries := a.queries + [Query(a.index, t.heights[|t.heights| - 1], true)]);
  }
}
