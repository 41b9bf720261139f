/**
  What a profile collection lays out before any height arrives: entry
  counts, slot coverage, along-track distances and the waypoint height
  range, proved of `Sampler.Sample` for every valid track.
 */
module SamplerProperties {
  import opened Classifier
  import opened Ranges
  import opened Sampler

  /** The track entries after `m` segments: entry `i` sits at the summed
      projected length of the segments before waypoint `i`. */
  lemma {:induction false} AfterTrack(t: Track, m: nat)
    requires ValidTrack(t) && m <= |t.segments|
    ensures forall i :: 0 <= i <= m ==> After(t, m).track[i] == TrackPoint(DistBefore(t, i), t.heights[i])
  {
    if m > 0 {
      AfterTrack(t, m - 1);
      AfterTrackStep(t, m);
    }
  }

  /** The inductive step of `AfterTrack`. */
  lemma AfterTrackStep(t: Track, m: nat)
    requires ValidTrack(t) && 0 < m <= |t.segments|
    requires forall i :: 0 <= i <= m - 1 ==> After(t, m - 1).track[i] == TrackPoint(DistBefore(t, i), t.heights[i])
    ensures forall i :: 0 <= i <= m ==> After(t, m).track[i] == TrackPoint(DistBefore(t, i), t.heights[i])
  {
    var a := After(t, m - 1);
    assert ValidSegment(t.segments[m - 1]);
    assert After(t, m).track == a.track + [TrackPoint(a.dist + t.segments[m - 1].projLen, t.heights[m])];
  }

  /** Every query sits at the position of the slot it writes. */
  predicate QueriesIndexed(a: Acc) {
    forall x :: 0 <= x < |a.queries| ==> a.queries[x].index == x
  }

  /** Placeholders only, distances non-decreasing between 0 and the running
      distance. */
  predicate GroundOrdered(a: Acc) {
    && 0.0 <= a.dist
    && (forall x :: 0 <= x < |a.ground| ==> a.ground[x] == Placeholder(a.ground[x].dist))
    && (forall x :: 0 <= x < |a.ground| ==> 0.0 <= a.ground[x].dist <= a.dist)
    && (forall x, y :: 0 <= x < y < |a.ground| ==> a.ground[x].dist <= a.ground[y].dist)
  }

  /** A segment keeps every query at its slot's position. */
  lemma StepKeepsQueriesIndexed(a: Acc, seg: Segment, h0: real, h1: real)
    requires ValidSegment(seg) && a.index == |a.queries| && QueriesIndexed(a)
    ensures QueriesIndexed(SegmentStep(a, seg, h0, h1))
  {
    var r := SegmentStep(a, seg, h0, h1);
    SegmentStepLayout(a, seg, h0, h1);
    forall x | 0 <= x < |r.queries|
      ensures r.queries[x].index == x
    {
      if x < |a.queries| {
        assert r.queries[x] == a.queries[x];
      }
    }
  }

  /** A segment appends slots at or beyond the running distance, at most
      its projected length further on. */
  lemma StepKeepsGroundOrdered(a: Acc, seg: Segment, h0: real, h1: real)
    requires ValidSegment(seg) && GroundOrdered(a)
    ensures GroundOrdered(SegmentStep(a, seg, h0, h1))
  {
    var r := SegmentStep(a, seg, h0, h1);
    SegmentStepLayout(a, seg, h0, h1);
    var n := |a.ground|;
    var k := |seg.interiorHeights|;
    forall x | n < x < |r.ground|
      ensures r.ground[x] == Placeholder(r.ground[x].dist)
      ensures a.dist <= r.ground[x].dist <= r.dist
    {
      assert r.ground[x] == Placeholder(a.dist + (x - n) as real * SEGMENT_LENGTH);
      assert (x - n) as real <= k as real;
    }
    forall x | 0 <= x < n
      ensures r.ground[x] == a.ground[x]
    {
    }
    forall x, y | 0 <= x < y < |r.ground|
      ensures r.ground[x].dist <= r.ground[y].dist
    {
      if y > n && x > n {
        assert r.ground[y] == Placeholder(a.dist + (y - n) as real * SEGMENT_LENGTH);
        assert r.ground[x] == Placeholder(a.dist + (x - n) as real * SEGMENT_LENGTH);
      }
    }
  }

  /** The ground slots after `m` segments: placeholders only, each with the
      query of its own index, distances non-decreasing between 0 and the
      running distance. */
  lemma {:induction false} AfterGround(t: Track, m: nat)
    requires ValidTrack(t) && m <= |t.segments|
    ensures QueriesIndexed(After(t, m)) && GroundOrdered(After(t, m))
  {
    if m > 0 {
      AfterGround(t, m - 1);
      assert ValidSegment(t.segments[m - 1]);
      StepKeepsQueriesIndexed(After(t, m - 1), t.segments[m - 1], t.heights[m - 1], t.heights[m]);
      StepKeepsGroundOrdered(After(t, m - 1), t.segments[m - 1], t.heights[m - 1], t.heights[m]);
    }
  }

  /** The running range after `m` segments spans exactly the heights of the
      first `m + 1` waypoints. */
  lemma {:induction false} AfterRange(t: Track, m: nat)
    requires ValidTrack(t) && m <= |t.segments|
    ensures var a := After(t, m);
      && (forall i :: 0 <= i <= m ==> a.range.lo <= t.heights[i] <= a.range.hi)
      && (exists i :: 0 <= i <= m && a.range.lo == t.heights[i])
      && (exists i :: 0 <= i <= m && a.range.hi == t.heights[i])
  {
    if m == 0 {
      assert After(t, 0).range == Range(t.heights[0], t.heights[0]);
      assert 0 <= 0 <= m && After(t, 0).range.lo == t.heights[0];
      assert 0 <= 0 <= m && After(t, 0).range.hi == t.heights[0];
    } else {
      AfterRange(t, m - 1);
      AfterRangeStep(t, m);
    }
  }

  /** The inductive step of `AfterRange`. */
  lemma AfterRangeStep(t: Track, m: nat)
    requires ValidTrack(t) && 0 < m <= |t.segments|
    requires var a := After(t, m - 1);
      && (forall i :: 0 <= i <= m - 1 ==> a.range.lo <= t.heights[i] <= a.range.hi)
      && (exists i :: 0 <= i <= m - 1 && a.range.lo == t.heights[i])
      && (exists i :: 0 <= i <= m - 1 && a.range.hi == t.heights[i])
    ensures var r := After(t, m);
      && (forall i :: 0 <= i <= m ==> r.range.lo <= t.heights[i] <= r.range.hi)
      && (exists i :: 0 <= i <= m && r.range.lo == t.heights[i])
      && (exists i :: 0 <= i <= m && r.range.hi == t.heights[i])
  {
    var a := After(t, m - 1);
    var r := After(t, m);
    assert ValidSegment(t.segments[m - 1]);
    assert r.range == Range(Min(a.range.lo, t.heights[m]), Max(a.range.hi, t.heights[m]));
    var lo :| 0 <= lo <= m - 1 && a.range.lo == t.heights[lo];
    var hi :| 0 <= hi <= m - 1 && a.range.hi == t.heights[hi];
    var lo' := if r.range.lo == t.heights[m] then m else lo;
    var hi' := if r.range.hi == t.heights[m] then m else hi;
    assert 0 <= lo' <= m && r.range.lo == t.heights[lo'];
    assert 0 <= hi' <= m && r.range.hi == t.heights[hi'];
  }

  /** `r` extends `p`: the slots and queries of `p` survive in `r`. */
  predicate Extends(r: Acc, p: Acc) {
    && |p.ground| <= |r.ground| && |p.queries| <= |r.queries|
    && (forall x :: 0 <= x < |p.ground| ==> r.ground[x] == p.ground[x])
    && (forall x :: 0 <= x < |p.queries| ==> r.queries[x] == p.queries[x])
  }

  /** One more segment only appends. */
  lemma AfterStepExtends(t: Track, m: nat)
    requires ValidTrack(t) && 0 < m <= |t.segments|
    ensures Extends(After(t, m), After(t, m - 1))
  {
    var seg := t.segments[m - 1];
    assert ValidSegment(seg);
    assert After(t, m) == SegmentStep(After(t, m - 1), seg, t.heights[m - 1], t.heights[m]);
    SegmentStepLayout(After(t, m - 1), seg, t.heights[m - 1], t.heights[m]);
  }

  lemma ExtendsTransitive(r: Acc, a: Acc, p: Acc)
    requires Extends(r, a) && Extends(a, p)
    ensures Extends(r, p)
  {
  }

  /** Later segments only append: the slots and queries laid out for the
      first `m1` segments survive unchanged. */
  lemma {:induction false} AfterPrefix(t: Track, m1: nat, m2: nat)
    requires ValidTrack(t) && m1 <= m2 <= |t.segments|
    ensures Extends(After(t, m2), After(t, m1))
    decreases m2
  {
    if m1 < m2 {
      AfterPrefix(t, m1, m2 - 1);
      AfterPrefixStep(t, m1, m2);
    }
  }

  /** The inductive step of `AfterPrefix`. */
  lemma AfterPrefixStep(t: Track, m1: nat, m2: nat)
    requires ValidTrack(t) && m1 < m2 <= |t.segments|
    requires Extends(After(t, m2 - 1), After(t, m1))
    ensures Extends(After(t, m2), After(t, m1))
  {
    AfterStepExtends(t, m2);
    ExtendsTransitive(After(t, m2), After(t, m2 - 1), After(t, m1));
  }

  /** Counts: one track entry per waypoint, and one ground slot and one
      query per waypoint plus one per interior sample. */
  lemma SampleCounts(t: Track)
    requires ValidTrack(t)
    ensures |Sample(t).track| == |t.heights|
    ensures |Sample(t).ground| == |Sample(t).queries| == |t.heights| + InteriorBefore(t, |t.segments|)
  {
  }

  /** No gaps: every ground index is written once, with a placeholder, and
      has exactly the query at the same position in issue order. */
  lemma SampleSlotsFilled(t: Track)
    requires ValidTrack(t)
    ensures forall x :: 0 <= x < |Sample(t).queries| ==> Sample(t).queries[x].index == x
    ensures forall x :: 0 <= x < |Sample(t).ground| ==>
      Sample(t).ground[x] == Placeholder(Sample(t).ground[x].dist)
  {
    AfterGround(t, |t.segments|);
    var a := After(t, |t.segments|);
    var s := Sample(t);
    forall x | 0 <= x < |s.ground|
      ensures s.ground[x] == Placeholder(s.ground[x].dist)
    {
      if x < |a.ground| {
        assert s.ground[x] == a.ground[x];
      }
    }
    forall x | 0 <= x < |s.queries|
      ensures s.queries[x].index == x
    {
      if x < |a.queries| {
        assert s.queries[x] == a.queries[x];
      }
    }
  }

  /** Distances: track entry `i` sits at the summed projected length before
      waypoint `i`; ground distances start at 0, never decrease, and end at
      the last track entry's distance. */
  lemma SampleDistances(t: Track)
    requires ValidTrack(t)
    ensures forall i :: 0 <= i < |t.heights| ==>
      Sample(t).track[i] == TrackPoint(DistBefore(t, i), t.heights[i])
    ensures Sample(t).ground[0].dist == 0.0
    ensures forall x, y :: 0 <= x < y < |Sample(t).ground| ==> Sample(t).ground[x].dist <= Sample(t).ground[y].dist
    ensures Sample(t).ground[|Sample(t).ground| - 1].dist == Sample(t).dist == DistBefore(t, |t.segments|)
  {
    var m := |t.segments|;
    AfterTrack(t, m);
    AfterGround(t, m);
    var a := After(t, m);
    var s := Sample(t);
    assert s.ground == a.ground + [Placeholder(a.dist)];
    forall x, y | 0 <= x < y < |s.ground|
      ensures s.ground[x].dist <= s.ground[y].dist
    {
      if y < |a.ground| {
        assert s.ground[x] == a.ground[x] && s.ground[y] == a.ground[y];
      } else {
        assert s.ground[x] == a.ground[x];
      }
    }
    if |a.ground| > 0 {
      FirstSlotAtZero(t);
      assert s.ground[0] == a.ground[0];
    }
  }

  /** The first slot is the boundary slot of the first waypoint. */
  lemma FirstSlotAtZero(t: Track)
    requires ValidTrack(t) && |After(t, |t.segments|).ground| > 0
    ensures After(t, |t.segments|).ground[0].dist == 0.0
  {
    var m := |t.segments|;
    AfterPrefix(t, 1, m);
    var a1 := After(t, 1);
    assert a1.ground[0] == Placeholder(After(t, 0).dist);
    assert After(t, m).ground[..SlotsBefore(t, 1)][0] == After(t, m).ground[0];
  }

  /** Slot layout at the waypoints: waypoint `i`'s boundary slot sits at
      index `SlotsBefore(t, i)`, at the waypoint's along-track distance, with
      a boundary query carrying the waypoint height. */
  lemma SampleBoundarySlots(t: Track)
    requires ValidTrack(t)
    ensures forall i :: 0 <= i < |t.heights| ==>
      SlotsBefore(t, i) < |Sample(t).ground| &&
      Sample(t).ground[SlotsBefore(t, i)] == Placeholder(DistBefore(t, i)) &&
      Sample(t).queries[SlotsBefore(t, i)] == Query(SlotsBefore(t, i), t.heights[i], true)
  {
    forall i | 0 <= i < |t.heights|
      ensures SlotsBefore(t, i) < |Sample(t).ground|
      ensures Sample(t).ground[SlotsBefore(t, i)] == Placeholder(DistBefore(t, i))
      ensures Sample(t).queries[SlotsBefore(t, i)] == Query(SlotsBefore(t, i), t.heights[i], true)
    {
      BoundarySlotAt(t, i);
    }
  }

  /** Slot layout between waypoints: the slots after waypoint `i`'s, up to
      waypoint `i + 1`'s, are its segment's interior samples one metre
      apart, each querying its interpolated track point. */
  lemma SampleInteriorSlotAt(t: Track, i: nat, x: nat)
    requires ValidTrack(t) && i < |t.segments|
    requires SlotsBefore(t, i) < x < SlotsBefore(t, i + 1)
    ensures x < |Sample(t).ground|
    ensures x - SlotsBefore(t, i) - 1 < |t.segments[i].interiorHeights|
    ensures Sample(t).ground[x] == Placeholder(DistBefore(t, i) + (x - SlotsBefore(t, i)) as real * SEGMENT_LENGTH)
    ensures Sample(t).queries[x] == Query(x, t.segments[i].interiorHeights[x - SlotsBefore(t, i) - 1], false)
  {
    var seg := t.segments[i];
    assert ValidSegment(seg);
    var r := After(t, i + 1);
    var s := Sample(t);
    InteriorSlotAt(t, i, x);
    SamplePrefixAt(t, i + 1, x);
    var k := x - SlotsBefore(t, i) - 1;
    assert r.queries[x] == Query(x, seg.interiorHeights[k], false);
    assert s.queries[x] == r.queries[x];
  }

  /** Slot `x` laid out by the first `m` segments is slot `x` of the sample. */
  lemma SamplePrefixAt(t: Track, m: nat, x: nat)
    requires ValidTrack(t) && m <= |t.segments| && x < |After(t, m).ground|
    ensures x < |Sample(t).ground| && Sample(t).ground[x] == After(t, m).ground[x]
    ensures Sample(t).queries[x] == After(t, m).queries[x]
  {
    AfterPrefix(t, m, |t.segments|);
  }

  /** Waypoint `i`'s boundary slot and its query. */
  lemma BoundarySlotAt(t: Track, i: nat)
    requires ValidTrack(t) && i < |t.heights|
    ensures SlotsBefore(t, i) < |Sample(t).ground|
    ensures Sample(t).ground[SlotsBefore(t, i)] == Placeholder(DistBefore(t, i))
    ensures Sample(t).queries[SlotsBefore(t, i)] == Query(SlotsBefore(t, i), t.heights[i], true)
  {
    if i < |t.segments| {
      DepartureSlot(t, i);
      SamplePrefixAt(t, i + 1, SlotsBefore(t, i));
    } else {
      var last := After(t, |t.segments|);
      assert Sample(t).ground == last.ground + [Placeholder(last.dist)];
      assert Sample(t).queries == last.queries + [Query(last.index, t.heights[i], true)];
    }
  }

  /** The first slot a segment lays out is its departure waypoint's. */
  lemma DepartureSlot(t: Track, i: nat)
    requires ValidTrack(t) && i < |t.segments|
    ensures SlotsBefore(t, i) < |After(t, i + 1).ground|
    ensures After(t, i + 1).ground[SlotsBefore(t, i)] == Placeholder(DistBefore(t, i))
    ensures After(t, i + 1).queries[SlotsBefore(t, i)] == Query(SlotsBefore(t, i), t.heights[i], true)
  {
    var seg := t.segments[i];
    assert ValidSegment(seg);
    var a := After(t, i);
    assert After(t, i + 1) == SegmentStep(a, seg, t.heights[i], t.heights[i + 1]);
  }

  /** Interior slot `x` of segment `i` and its query, as the first `i + 1`
      segments lay them out. */
  lemma InteriorSlotAt(t: Track, i: nat, x: nat)
    requires ValidTrack(t) && i < |t.segments|
    requires SlotsBefore(t, i) < x < SlotsBefore(t, i + 1)
    ensures After(t, i + 1).ground[x] == Placeholder(DistBefore(t, i) + (x - SlotsBefore(t, i)) as real * SEGMENT_LENGTH)
    ensures After(t, i + 1).queries[x] == Query(x, t.segments[i].interiorHeights[x - SlotsBefore(t, i) - 1], false)
  {
    var seg := t.segments[i];
    assert ValidSegment(seg);
    var a := After(t, i);
    assert After(t, i + 1) == SegmentStep(a, seg, t.heights[i], t.heights[i + 1]);
    StepInteriorSlot(a, seg, t.heights[i], t.heights[i + 1], x);
  }

  /** Slot `x` of a segment's interior, read off `SegmentStep`. */
  lemma StepInteriorSlot(a: Acc, seg: Segment, h0: real, h1: real, x: nat)
    requires ValidSegment(seg) && |a.ground| < x < |SegmentStep(a, seg, h0, h1).ground| && |a.ground| == |a.queries|
    ensures SegmentStep(a, seg, h0, h1).ground[x] == Placeholder(a.dist + (x - |a.ground|) as real * SEGMENT_LENGTH)
    ensures SegmentStep(a, seg, h0, h1).queries[x] == Query(a.index + (x - |a.ground|), seg.interiorHeights[x - |a.ground| - 1], false)
  {
    SegmentStepLayout(a, seg, h0, h1);
  }

  /** Range accumulation over the track: the sampler's range starts at the
      first waypoint height and ends up spanning exactly the waypoint
      heights, so it is ordered. */
  lemma SampleRange(t: Track)
    requires ValidTrack(t)
    ensures Sample(t).range.lo <= Sample(t).range.hi
    ensures forall i :: 0 <= i < |t.heights| ==> Sample(t).range.lo <= t.heights[i] <= Sample(t).range.hi
    ensures exists i :: 0 <= i < |t.heights| && Sample(t).range.lo == t.heights[i]
    ensures exists i :: 0 <= i < |t.heights| && Sample(t).range.hi == t.heights[i]
  {
    AfterRange(t, |t.segments|);
    assert Sample(t).range.lo <= t.heights[0] <= Sample(t).range.hi;
  }

  /** A single waypoint is not a no-op: it lays out one track entry and one
      boundary slot at distance 0 with its query, and its height is the
      whole range. */
  lemma SingleWaypoint(h: real)
    ensures ValidTrack(Track([h], []))
    ensures Sample(Track([h], [])) ==
      Acc(0.0, 0, Range(h, h), [TrackPoint(0.0, h)], [Placeholder(0.0)], [Query(0, h, true)])
  {
  }
}
