/**
  Running elevation range of a profile collection and the padding applied
  when a collection is committed (ElevationProfile `_getGroundElevation`,
  `_collectCoordsBetweenTwoTrackPoints`, `_collectAllPoints`,
  `collectProfile`).
 */
module Ranges {
  import opened Classifier

  const BOTTOM_PADDING: real := 0.1
  const TOP_PADDING: real := 0.1

  /** `if (elv > max) max = elv` */
  function Max(a: real, x: real): real {
    if x > a then x else a
  }

  /** `if (elv < min) min = elv` */
  function Min(a: real, x: real): real {
    if x < a then x else a
  }

  /** `Math.abs` */
  function Abs(x: real): real {
    if x < 0.0 then -x else x
  }

  datatype Range = Range(lo: real, hi: real)

  /** Whether a delivered elevation enters the running range. NaN never does
      (its comparisons are false). An interior sample's number always does;
      a boundary sample's number must also be truthy, so exactly 0 is
      ignored there. */
  predicate Contributes(elv: Elevation, boundary: bool) {
    elv.Num? && (!boundary || elv.v != 0.0)
  }

  /** One `.then` handler of a height query: the two guarded updates of the
      running minimum and maximum. */
  function Accumulate(r: Range, elv: Elevation, boundary: bool): (r': Range)
    ensures r'.lo <= r.lo && r.hi <= r'.hi
    ensures r.lo <= r.hi ==> r'.lo <= r'.hi
    ensures Contributes(elv, boundary) ==>
      r'.lo <= elv.v <= r'.hi &&
      (r'.lo == r.lo || r'.lo == elv.v) && (r'.hi == r.hi || r'.hi == elv.v)
    ensures !Contributes(elv, boundary) ==> r' == r
  {
    if !Contributes(elv, boundary) then r
    else Range(Min(r.lo, elv.v), Max(r.hi, elv.v))
  }

  /** A delivery: the elevation and whether it came from a boundary query. */
  datatype Delivery = Delivery(elv: Elevation, boundary: bool)

  /** The range after a sequence of deliveries, in delivery order. */
  function AccumulateAll(r: Range, ds: seq<Delivery>): Range
    decreases |ds|
  {
    if |ds| == 0 then r
    else AccumulateAll(Accumulate(r, ds[0].elv, ds[0].boundary), ds[1..])
  }

  /** The accumulated range holds the starting range and every contributing
      elevation, and its ends are the starting ends or contributing values:
      a non-contributing delivery leaves no trace. */
  lemma {:induction false} AccumulateAllBounds(r: Range, ds: seq<Delivery>)
    ensures var r' := AccumulateAll(r, ds);
      && r'.lo <= r.lo && r.hi <= r'.hi
      && (r.lo <= r.hi ==> r'.lo <= r'.hi)
      && (forall k :: 0 <= k < |ds| && Contributes(ds[k].elv, ds[k].boundary) ==> r'.lo <= ds[k].elv.v <= r'.hi)
      && (r'.lo == r.lo || exists k :: 0 <= k < |ds| && Contributes(ds[k].elv, ds[k].boundary) && r'.lo == ds[k].elv.v)
      && (r'.hi == r.hi || exists k :: 0 <= k < |ds| && Contributes(ds[k].elv, ds[k].boundary) && r'.hi == ds[k].elv.v)
    decreases |ds|
  {
    if |ds| > 0 {
      var r1 := Accumulate(r, ds[0].elv, ds[0].boundary);
      AccumulateAllBounds(r1, ds[1..]);
      var r' := AccumulateAll(r, ds);
      assert r' == AccumulateAll(r1, ds[1..]);
      forall k | 0 <= k < |ds| && Contributes(ds[k].elv, ds[k].boundary)
        ensures r'.lo <= ds[k].elv.v <= r'.hi
      {
        if k > 0 {
          assert ds[1..][k - 1] == ds[k];
        }
      }
      if r'.lo != r.lo {
        if r'.lo != r1.lo {
          var k :| 0 <= k < |ds[1..]| && Contributes(ds[1..][k].elv, ds[1..][k].boundary) && r'.lo == ds[1..][k].elv.v;
          assert ds[k + 1] == ds[1..][k];
        } else {
          assert Contributes(ds[0].elv, ds[0].boundary) && r'.lo == ds[0].elv.v;
        }
      }
      if r'.hi != r.hi {
        if r'.hi != r1.hi {
          var k :| 0 <= k < |ds[1..]| && Contributes(ds[1..][k].elv, ds[1..][k].boundary) && r'.hi == ds[1..][k].elv.v;
          assert ds[k + 1] == ds[1..][k];
        } else {
          assert Contributes(ds[0].elv, ds[0].boundary) && r'.hi == ds[0].elv.v;
        }
      }
    }
  }

  /** The display range `collectProfile` stores: 10% of the magnitude of
      each end added outward. */
  function Pad(r: Range): (p: Range)
    ensures p.lo <= r.lo && r.hi <= p.hi
    ensures p.lo == r.lo <==> r.lo == 0.0
    ensures p.hi == r.hi <==> r.hi == 0.0
    ensures r.lo <= r.hi ==> p.lo <= r.lo <= r.hi <= p.hi
    // each margin is a tenth of the magnitude of the end it pads
    ensures r.lo - p.lo == BOTTOM_PADDING * Abs(r.lo) && p.hi - r.hi == TOP_PADDING * Abs(r.hi)
  {
    Range(r.lo - BOTTOM_PADDING * Abs(r.lo), r.hi + Abs(r.hi) * TOP_PADDING)
  }
}
