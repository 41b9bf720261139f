/**
  Safety classification of ground samples (ElevationProfile `_setPointType` and
  `_setPointsType`). A ground sample is the JavaScript tuple
  `[distance, elevation, level, height]`; here it is a record.
 */
module Classifier {
  import opened Wrappers

  /** SAFE = 0, WARNING = 1, COLLISION = 2 */
  datatype Level = Safe | Warning | Collision

  /** A ground elevation as the height callback stores it: a number, or NaN
      (what `undefined + geoidHeight` evaluates to). */
  datatype Elevation = Num(v: real) | NaN

  const GROUND_OFFSET: real := 1.0
  const HEIGHT_EPS: real := 0.1

  /** `height` is None while the slot is a placeholder `[dist, 0, SAFE]`
      that has no fourth element yet. */
  datatype GroundPoint = GroundPoint(dist: real, elevation: Elevation, level: Level, height: Option<real>)

  /** The slot written before its height query is issued. */
  function Placeholder(d: real): GroundPoint {
    GroundPoint(d, Num(0.0), Safe, None)
  }

  /** The warning test: track at or above the ground and below ground plus
      the warning height less the tolerance. Comparisons with NaN or
      `undefined` are false in JavaScript. */
  predicate InWarningBand(elevation: Elevation, height: Option<real>, w: real) {
    elevation.Num? && height.Some? &&
    height.value >= elevation.v && height.value < elevation.v + w - HEIGHT_EPS
  }

  /** The collision test: track no higher than one metre above the ground. */
  predicate InCollisionBand(elevation: Elevation, height: Option<real>) {
    elevation.Num? && height.Some? && height.value <= elevation.v + GROUND_OFFSET
  }

  /** The level `_setPointType` leaves in a slot that held `level`. The
      warning test runs first, the collision test second and overrides it;
      neither test ever writes SAFE. */
  function PointType(level: Level, elevation: Elevation, height: Option<real>, w: real): (r: Level)
    // collision dominates whatever the warning threshold
    ensures InCollisionBand(elevation, height) ==> r == Collision
    // a level is never reset to SAFE
    ensures level != Safe ==> r != Safe
    // a fresh slot is WARNING exactly inside the band above the collision zone
    ensures level == Safe ==>
      (r == Warning <==>
        elevation.Num? && height.Some? &&
        elevation.v + GROUND_OFFSET < height.value < elevation.v + w - HEIGHT_EPS &&
        height.value >= elevation.v)
    ensures level == Safe ==> (r == Safe <==> !InCollisionBand(elevation, height) && !InWarningBand(elevation, height, w))
    // NaN elevation or missing height leaves the level as it was
    ensures elevation.NaN? || height.None? ==> r == level
    // outside both bands nothing is written, whatever the slot held
    ensures !InCollisionBand(elevation, height) && !InWarningBand(elevation, height, w) ==> r == level
    // inside the warning band only, the slot becomes WARNING, even from COLLISION
    ensures InWarningBand(elevation, height, w) && !InCollisionBand(elevation, height) ==> r == Warning
  {
    var afterWarning := if InWarningBand(elevation, height, w) then Warning else level;
    if InCollisionBand(elevation, height) then Collision else afterWarning
  }

  /** `_setPointType(i)`: re-applies the rule to slot `i` and ORs the result
      into the "any warning" flag. */
  function SetPointType(g: seq<GroundPoint>, i: nat, w: real, flag: bool): (r: (seq<GroundPoint>, bool))
    requires i < |g|
    ensures |r.0| == |g|
    ensures forall k :: 0 <= k < |g| && k != i ==> r.0[k] == g[k]
    ensures r.0[i].dist == g[i].dist && r.0[i].elevation == g[i].elevation && r.0[i].height == g[i].height
    ensures r.0[i].level == PointType(g[i].level, g[i].elevation, g[i].height, w)
    // the flag is only ever raised, never cleared
    ensures flag ==> r.1
    ensures r.1 <==> flag || r.0[i].level != Safe
  {
    var p := g[i];
    var level := PointType(p.level, p.elevation, p.height, w);
    (g[i := p.(level := level)], flag || level == Warning || level == Collision)
  }

  /** Reference meaning of a whole re-classification: every slot's level
      re-derived from the level it held, nothing else touched. */
  function Reclassified(g: seq<GroundPoint>, w: real): seq<GroundPoint> {
    seq(|g|, k requires 0 <= k < |g| => g[k].(level := PointType(g[k].level, g[k].elevation, g[k].height, w)))
  }

  /** True when some slot is WARNING or COLLISION. */
  predicate AnyAlarm(g: seq<GroundPoint>) {
    exists k :: 0 <= k < |g| && g[k].level != Safe
  }

  /** The loop of `_setPointsType`: reset the flag, then `_setPointType` on
      every index in order. */
  method SetPointsType(g: seq<GroundPoint>, w: real) returns (r: seq<GroundPoint>, isWarning: bool)
    ensures r == Reclassified(g, w)
    // only the level of each slot may change
    ensures forall k :: 0 <= k < |g| ==>
      r[k].dist == g[k].dist && r[k].elevation == g[k].elevation && r[k].height == g[k].height
    ensures isWarning <==> AnyAlarm(r)
  {
    r := g;
    isWarning := false;
    var i := 0;
    while i < |g|
      invariant 0 <= i <= |g|
      invariant |r| == |g|
      invariant forall k :: 0 <= k < i ==> r[k] == Reclassified(g, w)[k]
      invariant forall k :: i <= k < |g| ==> r[k] == g[k]
      invariant isWarning <==> exists k :: 0 <= k < i && r[k].level != Safe
    {
      var step := SetPointType(r, i, w, isWarning);
      r, isWarning := step.0, step.1;
      i := i + 1;
    }
  }

  /** Re-running the rule with the same threshold changes nothing. */
  lemma PointTypeIdempotent(level: Level, elevation: Elevation, height: Option<real>, w: real)
    ensures PointType(PointType(level, elevation, height, w), elevation, height, w) == PointType(level, elevation, height, w)
  {
  }

  /** Re-classifying twice with the same threshold equals once: levels
      reached by the first pass are fixed points of the rule. */
  lemma ReclassifiedIdempotent(g: seq<GroundPoint>, w: real)
    ensures Reclassified(Reclassified(g, w), w) == Reclassified(g, w)
  {
    var once := Reclassified(g, w);
    forall k | 0 <= k < |g|
      ensures Reclassified(once, w)[k] == once[k]
    {
      PointTypeIdempotent(g[k].level, g[k].elevation, g[k].height, w);
    }
  }
}
