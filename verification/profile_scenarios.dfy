/**
  Concrete runs of the ElevationProfile store that show what the
  generation guard does and does not protect.
 */
module ProfileScenarios {
  import opened Wrappers
  import opened Classifier
  import opened Ranges
  import opened Sampler
  import opened ProfileStore
  import SamplerProperties

  /** A one-waypoint track: one boundary sample, one query. */
  function OneWaypoint(h: real): (t: Track)
    ensures ValidTrack(t)
  {
    Track([h], [])
  }

  /** Collecting a one-waypoint track opens a generation with one query. */
  lemma CollectOneWaypoint(s: Profile, h: real)
    ensures CollectProfile(s, OneWaypoint(h)) ==
      s.(pointsReady := false, isWarning := false, counter := s.counter + 1,
         work := Acc(0.0, 0, Range(h, h), [TrackPoint(0.0, h)], [Placeholder(0.0)], [Query(0, h, true)]),
         drawData := Detach(s),
         inFlight := s.inFlight + {Pending(s.counter + 1, Query(0, h, true))})
  {
    SamplerProperties.SingleWaypoint(h);
    var issued := Issued(s.counter + 1, [Query(0, h, true)]);
    assert issued == {Pending(s.counter + 1, Query(0, h, true))};
  }

  /** A callback on the only sample of a one-sample work array. */
  lemma CallbackOnOnlySample(s: Profile, p: Pending, elv: Elevation)
    requires p in s.inFlight && p.query.index == 0 && |s.work.ground| == 1
    ensures
      var level := PointType(Safe, elv, Some(p.query.height), s.warningHeightLevel);
      HeightCallback(s, p, elv) ==
        s.(inFlight := s.inFlight - {p},
           isWarning := s.isWarning || level != Safe,
           work := s.work.(ground := [GroundPoint(s.work.ground[0].dist, elv, level, Some(p.query.height))],
                           range := Accumulate(s.work.range, elv, p.query.boundary)))
  {
    var r := HeightCallback(s, p, elv);
    assert r.work.ground == [r.work.ground[0]];
  }

  /** Collection A (a waypoint at 10 m) is superseded by collection B (a
      waypoint at 100 m) before A's height arrives. A's callback still lands
      in B's sample 0 and raises the warning flag; B's own callback then
      overwrites the sample with a SAFE level, yet the flag stays raised and
      B commits with `isWarningOrCollision` true although none of its
      samples is WARNING or COLLISION. */
  lemma StaleCallbackRaisesFlagOfNewerProfile()
    ensures
      var qa := Query(0, 10.0, true);
      var qb := Query(0, 100.0, true);
      var s1 := CollectProfile(Init(), OneWaypoint(10.0));
      var s2 := CollectProfile(s1, OneWaypoint(100.0));
      var s3 := HeightCallback(s2, Pending(1, qa), Num(9.5));
      var s4 := HeightCallback(s3, Pending(2, qb), Num(20.0));
      var s5 := Resolve(s4, 2);
      && s2.counter == 2
      && Pending(1, qa) in s2.inFlight && Pending(2, qb) in s3.inFlight
      && s3.work.ground[0].level == Collision && s3.isWarning
      && s4.work.ground[0].level == Safe
      && Enabled(s4, Settled(2))
      && s5.pointsReady && s5.isWarning
      && PublishedGround(s5) == Some([GroundPoint(0.0, Num(20.0), Safe, Some(100.0))])
      && !AnyAlarm(PublishedGround(s5).value)
  {
    var qa := Query(0, 10.0, true);
    var qb := Query(0, 100.0, true);
    var s1 := CollectProfile(Init(), OneWaypoint(10.0));
    CollectOneWaypoint(Init(), 10.0);
    var s2 := CollectProfile(s1, OneWaypoint(100.0));
    CollectOneWaypoint(s1, 100.0);
    assert s2.inFlight == {Pending(1, qa), Pending(2, qb)};
    var s3 := HeightCallback(s2, Pending(1, qa), Num(9.5));
    CallbackOnOnlySample(s2, Pending(1, qa), Num(9.5));
    assert PointType(Safe, Num(9.5), Some(10.0), 50.0) == Collision;
    assert s3.work.ground == [GroundPoint(0.0, Num(9.5), Collision, Some(10.0))];
    assert s3.inFlight == {Pending(2, qb)};
    var s4 := HeightCallback(s3, Pending(2, qb), Num(20.0));
    CallbackOnOnlySample(s3, Pending(2, qb), Num(20.0));
    assert PointType(Safe, Num(20.0), Some(100.0), 50.0) == Safe;
    assert s4.work.ground == [GroundPoint(0.0, Num(20.0), Safe, Some(100.0))];
    assert s4.inFlight == {};
    var s5 := Resolve(s4, 2);
    assert PublishedGround(s5).value == s4.work.ground;
  }

  /** Once a collection commits, the published samples are its work array
      itself. A superseded collection's callback that arrives after the
      commit writes into that array: what is on display changes, with no
      dispatch. Collection A (a waypoint at 10 m) is superseded by B (a
      waypoint at 100 m); B's height arrives, B's fan-in is enabled and
      commits, then A's height arrives. */
  lemma LateCallbackRewritesPublishedSamples()
    ensures
      var qa := Query(0, 10.0, true);
      var qb := Query(0, 100.0, true);
      var s1 := CollectProfile(Init(), OneWaypoint(10.0));
      var s2 := CollectProfile(s1, OneWaypoint(100.0));
      var s3 := HeightCallback(s2, Pending(2, qb), Num(20.0));
      var s4 := Resolve(s3, 2);
      var s5 := HeightCallback(s4, Pending(1, qa), Num(9.5));
      && Pending(2, qb) in s2.inFlight
      && Enabled(s3, Settled(2))
      && Pending(1, qa) in s4.inFlight
      && PublishedGround(s4) == Some([GroundPoint(0.0, Num(20.0), Safe, Some(100.0))])
      && PublishedGround(s5) == Some([GroundPoint(0.0, Num(9.5), Collision, Some(10.0))])
      && s5.dispatched == s4.dispatched
  {
    var qa := Query(0, 10.0, true);
    var qb := Query(0, 100.0, true);
    var s1 := CollectProfile(Init(), OneWaypoint(10.0));
    CollectOneWaypoint(Init(), 10.0);
    var s2 := CollectProfile(s1, OneWaypoint(100.0));
    CollectOneWaypoint(s1, 100.0);
    assert s2.inFlight == {Pending(1, qa), Pending(2, qb)};
    var s3 := HeightCallback(s2, Pending(2, qb), Num(20.0));
    CallbackOnOnlySample(s2, Pending(2, qb), Num(20.0));
    assert PointType(Safe, Num(20.0), Some(100.0), 50.0) == Safe;
    assert s3.inFlight == {Pending(1, qa)};
    assert s3.work.ground == [GroundPoint(0.0, Num(20.0), Safe, Some(100.0))];
    var s4 := Resolve(s3, 2);
    assert PublishedGround(s4).value == s3.work.ground;
    var s5 := HeightCallback(s4, Pending(1, qa), Num(9.5));
    CallbackOnOnlySample(s4, Pending(1, qa), Num(9.5));
    assert PointType(Safe, Num(9.5), Some(10.0), 50.0) == Collision;
  }

  /** `clear` does not move the counter: a collection in flight when it is
      called still commits afterwards. */
  lemma ClearDoesNotCancel()
    ensures
      var q := Query(0, 10.0, true);
      var s1 := CollectProfile(Init(), OneWaypoint(10.0));
      var s2 := Clear(s1);
      var s3 := HeightCallback(s2, Pending(1, q), Num(3.0));
      var s4 := Resolve(s3, 1);
      && Pending(1, q) in s2.inFlight
      && Enabled(s3, Settled(1))
      && s4.pointsReady && s4.drawData.Some?
      && |s4.dispatched| == 1
  {
    var q := Query(0, 10.0, true);
    var s1 := CollectProfile(Init(), OneWaypoint(10.0));
    CollectOneWaypoint(Init(), 10.0);
    var s2 := Clear(s1);
    assert s2.inFlight == {Pending(1, q)};
    var s3 := HeightCallback(s2, Pending(1, q), Num(3.0));
    assert s3.inFlight == {};
  }

  /** The queries of a two-waypoint track whose waypoints coincide: the
      departure sample and the arrival sample. */
  lemma TwoCoincidentWaypointsSample(h0: real, h1: real)
    ensures ValidTrack(Track([h0, h1], [Segment(0.0, [])]))
    ensures Sample(Track([h0, h1], [Segment(0.0, [])])).queries == [Query(0, h0, true), Query(1, h1, true)]
  {
    var t := Track([h0, h1], [Segment(0.0, [])]);
    assert ValidTrack(t);
    var a1 := After(t, 1);
    assert a1 == SegmentStep(After(t, 0), t.segments[0], h0, h1);
    assert a1.queries == [Query(0, h0, true)];
    assert a1.index == 1;
  }

  /** A query for a sample past the first, still in flight when a
      one-waypoint collection replaces the work array, throws when it
      returns: its generation gets stuck. */
  lemma ShorterCollectionStrandsQuery(s: Profile, p: Pending, h: real, elv: Elevation)
    requires p in s.inFlight && p.query.index >= 1
    ensures p in CollectProfile(s, OneWaypoint(h)).inFlight
    ensures var s3 := HeightCallback(CollectProfile(s, OneWaypoint(h)), p, elv);
      p.gen in s3.stuck && !Enabled(s3, Settled(p.gen))
  {
    CollectOneWaypoint(s, h);
  }

  /** Every query of a non-empty collection goes out tagged with the new
      generation. */
  lemma CollectIssues(s: Profile, t: Track, q: Query)
    requires ValidTrack(t) && q in Sample(t).queries
    ensures Pending(s.counter + 1, q) in CollectProfile(s, t).inFlight
  {
  }

  /** A callback whose sample no longer exists (the work array was replaced
      by a shorter one) throws; its generation never commits. Shown for any
      two coincident waypoints followed by any single waypoint. */
  lemma CallbackPastTheEndGetsStuck(h0: real, h1: real, h: real, elv: Elevation)
    ensures ValidTrack(Track([h0, h1], [Segment(0.0, [])]))
    ensures
      var q := Query(1, h1, true);
      var s1 := CollectProfile(Init(), Track([h0, h1], [Segment(0.0, [])]));
      var s3 := HeightCallback(CollectProfile(s1, OneWaypoint(h)), Pending(1, q), elv);
      && Pending(1, q) in s1.inFlight
      && 1 in s3.stuck && !Enabled(s3, Settled(1))
  {
    var t := Track([h0, h1], [Segment(0.0, [])]);
    var q := Query(1, h1, true);
    TwoCoincidentWaypointsSample(h0, h1);
    assert q in Sample(t).queries;
    CollectIssues(Init(), t, q);
    var s1 := CollectProfile(Init(), t);
    ShorterCollectionStrandsQuery(s1, Pending(1, q), h, elv);
  }
}
