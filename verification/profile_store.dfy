/**
  The ElevationProfile object as a record, and its public and
  asynchronous operations as events: `collectProfile`, the height-query
  callbacks, the collection's fan-in, `setWarningHeightLevel`, `setRange`,
  `_setPointsType` and `clear`.

  JavaScript arrays are shared by reference. Two references matter here:
  `_pGroundCoords` (the work array the height callbacks write into) and
  `_drawData[GROUND]` (the published ground samples). After a commit or a
  re-classification they are the same array; a new collection or `clear`
  points `_pGroundCoords` at a fresh array. `DrawGround` records which.
 */
module ProfileStore {
  import opened Wrappers
  import opened Classifier
  import opened Ranges
  import opened Sampler
  import SamplerProperties

  const DEFAULT_WARNING_HEIGHT: real := 50.0

  /** `_drawData[GROUND]`: either the very array `_pGroundCoords` refers to,
      or an array no longer reachable from `_pGroundCoords`. */
  datatype DrawGround = SharedWithWork | Detached(points: seq<GroundPoint>)

  /** `_drawData = [trackCoords, groundCoords]` */
  datatype DrawData = DrawData(track: seq<TrackPoint>, ground: DrawGround)

  /** A height query in flight, tagged with the generation that issued it. */
  datatype Pending = Pending(gen: nat, query: Query)

  /** What one `profilecollected` dispatch carried, as values. */
  datatype Payload = Payload(track: seq<TrackPoint>, ground: seq<GroundPoint>)

  datatype Profile = Profile(
    warningHeightLevel: real,
    pointsReady: bool,
    isWarning: bool,
    minX: real,
    maxX: real,
    minY: real,
    maxY: real,
    drawData: Option<DrawData>,
    /** `_promiseCounter` */
    counter: nat,
    /** `_pDist`, `_pIndex`, `_pMinY`/`_pMaxY`, `_pTrackCoords`, `_pGroundCoords`, `_promiseArr` */
    work: Acc,
    /** height queries whose callback has not run yet */
    inFlight: set<Pending>,
    /** generations one of whose callbacks threw, so their `Promise.all` never settles */
    stuck: set<nat>,
    /** generations whose `Promise.all` has settled */
    settled: set<nat>,
    /** every `profilecollected` dispatch, in order */
    dispatched: seq<Payload>)

  /** The accumulators the constructor and `clear` install. */
  function EmptyWork(queries: seq<Query>): Acc {
    Acc(0.0, 0, Range(0.0, 0.0), [TrackPoint(0.0, 0.0)], [Placeholder(0.0)], queries)
  }

  /** The constructor. */
  function Init(): Profile {
    Profile(DEFAULT_WARNING_HEIGHT, false, false, 0.0, 1000.0, 0.0, 200.0,
            None, 0, EmptyWork([]), {}, {}, {}, [])
  }

  /** The ground samples `_drawData[GROUND]` holds right now. */
  function PublishedGround(s: Profile): Option<seq<GroundPoint>> {
    match s.drawData
    case None => None
    case Some(d) => Some(if d.ground.SharedWithWork? then s.work.ground else d.ground.points)
  }

  /** `_drawData` after `_pGroundCoords` is pointed at a fresh array. */
  function Detach(s: Profile): (r: Option<DrawData>)
    ensures r.None? <==> s.drawData.None?
    ensures r.Some? ==> r.value.track == s.drawData.value.track && r.value.ground.Detached?
    ensures r.Some? ==> r.value.ground.points == PublishedGround(s).value
  {
    match s.drawData
    case None => None
    case Some(d) => Some(DrawData(d.track, Detached(PublishedGround(s).value)))
  }

  /** The queries a generation issues, tagged with it. */
  function Issued(gen: nat, qs: seq<Query>): (r: set<Pending>)
    ensures forall q :: q in qs ==> Pending(gen, q) in r
    ensures forall p :: p in r ==> p.gen == gen && p.query in qs
  {
    set q | q in qs :: Pending(gen, q)
  }

  /** A collection input the source accepts: `null` or `[]` (no waypoints),
      or a track whose geometry is consistent. */
  predicate WellFormedInput(t: Track) {
    |t.heights| == 0 || ValidTrack(t)
  }

  /** `collectProfile`: the flags drop first; without waypoints nothing else
      happens; otherwise the counter moves to a new generation, the sampler
      lays out a fresh collection and its height queries go out. */
  function CollectProfile(s: Profile, t: Track): (r: Profile)
    requires WellFormedInput(t)
    ensures !r.pointsReady && !r.isWarning
    // empty input: only the two flags change, the counter stays
    ensures |t.heights| == 0 ==> r == s.(pointsReady := false, isWarning := false)
    ensures |t.heights| > 0 ==>
      && r.counter == s.counter + 1
      && r.work == Sample(t)
      && (forall q :: q in Sample(t).queries ==> Pending(r.counter, q) in r.inFlight)
      && (forall p :: p in r.inFlight ==> p in s.inFlight || (p.gen == r.counter && p.query in Sample(t).queries))
    // the published samples and the ranges are untouched
    ensures PublishedGround(r) == PublishedGround(s)
    ensures r.minX == s.minX && r.maxX == s.maxX && r.minY == s.minY && r.maxY == s.maxY
    ensures r.dispatched == s.dispatched && r.warningHeightLevel == s.warningHeightLevel
    // the published track stays; only the ground array is detached from the work
    ensures |t.heights| > 0 ==> r.drawData == Detach(s)
    // earlier queries are never cancelled, and the fan-in bookkeeping stays
    ensures s.inFlight <= r.inFlight && r.stuck == s.stuck && r.settled == s.settled
  {
    var s1 := s.(pointsReady := false, isWarning := false);
    if |t.heights| == 0 then s1
    else
      var gen := s.counter + 1;
      var smp := Sample(t);
      s1.(counter := gen, work := smp, drawData := Detach(s), inFlight := s.inFlight + Issued(gen, smp.queries))
  }

  /** A height callback (`_getHeightAsync`) followed by its `.then` range
      update. It writes into whatever `_pGroundCoords` is now, whichever
      generation issued the query; an index past its end throws, and that
      generation's fan-in never settles. */
  function HeightCallback(s: Profile, p: Pending, elv: Elevation): (r: Profile)
    requires p in s.inFlight
    ensures r.inFlight == s.inFlight - {p}
    ensures r.counter == s.counter && r.pointsReady == s.pointsReady && r.drawData == s.drawData
    ensures r.minX == s.minX && r.maxX == s.maxX && r.minY == s.minY && r.maxY == s.maxY
    ensures r.dispatched == s.dispatched && r.settled == s.settled && r.warningHeightLevel == s.warningHeightLevel
    ensures r.work.dist == s.work.dist && r.work.track == s.work.track && |r.work.ground| == |s.work.ground|
    ensures p.query.index >= |s.work.ground| ==> r == s.(inFlight := s.inFlight - {p}, stuck := s.stuck + {p.gen})
    ensures p.query.index < |s.work.ground| ==>
      var i := p.query.index;
      && r.stuck == s.stuck
      && r.work.ground[i] == GroundPoint(s.work.ground[i].dist, elv, r.work.ground[i].level, Some(p.query.height))
      && r.work.ground[i].level == PointType(Safe, elv, Some(p.query.height), s.warningHeightLevel)
      && (forall k :: 0 <= k < |s.work.ground| && k != i ==> r.work.ground[k] == s.work.ground[k])
      && (r.isWarning <==> s.isWarning || r.work.ground[i].level != Safe)
      && r.work.range == Accumulate(s.work.range, elv, p.query.boundary)
  {
    var i := p.query.index;
    var rest := s.inFlight - {p};
    if i >= |s.work.ground| then
      s.(inFlight := rest, stuck := s.stuck + {p.gen})
    else
      var written := GroundPoint(s.work.ground[i].dist, elv, Safe, Some(p.query.height));
      var classified := SetPointType(s.work.ground[i := written], i, s.warningHeightLevel, s.isWarning);
      s.(inFlight := rest,
         isWarning := classified.1,
         work := s.work.(ground := classified.0, range := Accumulate(s.work.range, elv, p.query.boundary)))
  }

  /** The fan-in of generation `gen` has settled: the collection result is
      read from the current accumulators and committed only if no newer
      `collectProfile` has moved the counter since. */
  function Resolve(s: Profile, gen: nat): (r: Profile)
    ensures r.settled == s.settled + {gen}
    ensures r.counter == s.counter && r.work == s.work && r.inFlight == s.inFlight && r.isWarning == s.isWarning
    ensures r.warningHeightLevel == s.warningHeightLevel && r.stuck == s.stuck
    // a commit publishes the work ground array itself, not a copy
    ensures gen == s.counter ==> r.drawData == Some(DrawData(s.work.track, SharedWithWork))
    // the guard: a stale generation leaves everything visible as it was
    ensures gen != s.counter ==> r == s.(settled := s.settled + {gen})
    // a current one publishes, with one dispatch
    ensures gen == s.counter ==>
      && r.pointsReady
      && r.dispatched == s.dispatched + [Payload(s.work.track, s.work.ground)]
      && PublishedGround(r) == Some(s.work.ground)
      && r.drawData.Some? && r.drawData.value.track == s.work.track
      && r.minX == 0.0 && r.maxX == s.work.dist
      && r.minY <= s.work.range.lo && s.work.range.hi <= r.maxY
      && (s.work.range.lo <= s.work.range.hi ==> r.minY <= r.maxY)
      && r.minY == Pad(s.work.range).lo && r.maxY == Pad(s.work.range).hi
  {
    var s1 := s.(settled := s.settled + {gen});
    if gen != s.counter then s1
    else
      var padded := Pad(s.work.range);
      s1.(minX := 0.0, maxX := s.work.dist, minY := padded.lo, maxY := padded.hi,
          pointsReady := true,
          drawData := Some(DrawData(s.work.track, SharedWithWork)),
          dispatched := s.dispatched + [Payload(s.work.track, s.work.ground)])
  }

  /** `clear`: drops the flags, the published data and the accumulators; the
      ranges, the counter and the queries in flight stay. */
  function Clear(s: Profile): (r: Profile)
    ensures !r.pointsReady && !r.isWarning && r.drawData.None?
    ensures r.counter == s.counter && r.inFlight == s.inFlight
    ensures r.minX == s.minX && r.maxX == s.maxX && r.minY == s.minY && r.maxY == s.maxY
    ensures r.work.dist == 0.0 && r.work.index == 0 && r.work.range == Range(0.0, 0.0)
    ensures r.work.ground == [Placeholder(0.0)] && r.work.track == [TrackPoint(0.0, 0.0)]
    // the threshold, the dispatch log and the fan-in bookkeeping stay
    ensures r.warningHeightLevel == s.warningHeightLevel && r.dispatched == s.dispatched
    ensures r.stuck == s.stuck && r.settled == s.settled
  {
    s.(pointsReady := false, isWarning := false, drawData := None, work := EmptyWork(s.work.queries))
  }

  /** `_setPointsType`: the flag drops, then every published ground sample
      is re-classified with the current threshold and the result dispatched.
      With nothing published, `_drawData[TRACK]` throws right after the flag
      drops. */
  function ReclassifyProfile(s: Profile): (r: Profile)
    ensures r.counter == s.counter && r.pointsReady == s.pointsReady && r.inFlight == s.inFlight
    ensures r.minX == s.minX && r.maxX == s.maxX && r.minY == s.minY && r.maxY == s.maxY
    ensures s.drawData.None? ==> r == s.(isWarning := false)
    ensures s.drawData.Some? <==> r.drawData.Some?
    ensures r.stuck == s.stuck && r.settled == s.settled
    // the published ground array and the work array are one array again
    ensures s.drawData.Some? ==> r.drawData == Some(DrawData(s.drawData.value.track, SharedWithWork))
    // the accumulators are re-pointed at the published arrays
    ensures s.drawData.Some? ==>
      && r.work.ground == PublishedGround(r).value
      && r.work.track == s.drawData.value.track
      && r.work.dist == s.work.dist && r.work.range == s.work.range
      && r.warningHeightLevel == s.warningHeightLevel
    ensures s.drawData.Some? ==>
      var before := PublishedGround(s).value;
      var after := PublishedGround(r).value;
      && r.drawData.value.track == s.drawData.value.track
      && |after| == |before|
      // only levels change
      && (forall k :: 0 <= k < |before| ==>
            after[k].dist == before[k].dist && after[k].elevation == before[k].elevation &&
            after[k].height == before[k].height)
      && (forall k :: 0 <= k < |before| ==>
            after[k].level == PointType(before[k].level, before[k].elevation, before[k].height, s.warningHeightLevel))
      // the flag is the OR over all samples
      && (r.isWarning <==> AnyAlarm(after))
      && r.dispatched == s.dispatched + [Payload(s.drawData.value.track, after)]
  {
    match s.drawData
    case None => s.(isWarning := false)
    case Some(d) =>
      var g := Reclassified(PublishedGround(s).value, s.warningHeightLevel);
      s.(isWarning := AnyAlarm(g),
         work := s.work.(track := d.track, ground := g),
         drawData := Some(DrawData(d.track, SharedWithWork)),
         dispatched := s.dispatched + [Payload(d.track, g)])
  }

  /** `setWarningHeightLevel`: stores the threshold (0 when called without
      one) and re-classifies nothing. */
  function SetWarningHeightLevel(s: Profile, level: Option<real>): (r: Profile)
    ensures r.warningHeightLevel == (if level.Some? then level.value else 0.0)
    ensures r.(warningHeightLevel := s.warningHeightLevel) == s
  {
    s.(warningHeightLevel := level.GetOr(0.0))
  }

  /** `setRange` */
  function SetRange(s: Profile, minX: real, maxX: real, minY: real, maxY: real): (r: Profile)
    ensures r.minX == minX && r.maxX == maxX && r.minY == minY && r.maxY == maxY
    ensures r.(minX := s.minX, maxX := s.maxX, minY := s.minY, maxY := s.maxY) == s
  {
    s.(minX := minX, maxX := maxX, minY := minY, maxY := maxY)
  }

  datatype Event =
    | Collect(input: Track)
    | Delivered(pending: Pending, elevation: Elevation)
    | Settled(gen: nat)
    | WarningLevelSet(level: Option<real>)
    | RangeSet(minX: real, maxX: real, minY: real, maxY: real)
    | Reclassify
    | Cleared

  /** When an event can happen: a callback only for a query in flight; a
      fan-in only once for an issued generation none of whose callbacks is
      outstanding or threw. */
  predicate Enabled(s: Profile, e: Event) {
    match e
    case Collect(t) => WellFormedInput(t)
    case Delivered(p, _) => p in s.inFlight
    case Settled(g) =>
      1 <= g <= s.counter && g !in s.settled && g !in s.stuck &&
      forall p :: p in s.inFlight ==> p.gen != g
    case _ => true
  }

  function Step(s: Profile, e: Event): (r: Profile)
    requires Enabled(s, e)
    // only a non-empty collection moves the counter, and by one
    ensures r.counter == s.counter || (e.Collect? && |e.input.heights| > 0 && r.counter == s.counter + 1)
    // a generation whose callback threw stays stuck
    ensures s.stuck <= r.stuck
    // only a fan-in of the current generation or a re-classification dispatches
    ensures |r.dispatched| != |s.dispatched| ==>
      (e.Settled? && e.gen == s.counter) || (e.Reclassify? && s.drawData.Some?)
  {
    match e
    case Collect(t) => CollectProfile(s, t)
    case Delivered(p, elv) => HeightCallback(s, p, elv)
    case Settled(g) => Resolve(s, g)
    case WarningLevelSet(level) => SetWarningHeightLevel(s, level)
    case RangeSet(a, b, c, d) => SetRange(s, a, b, c, d)
    case Reclassify => ReclassifyProfile(s)
    case Cleared => Clear(s)
  }

  /** An event that cannot happen in state `s` leaves it as it is. */
  function Apply(s: Profile, e: Event): Profile {
    if Enabled(s, e) then Step(s, e) else s
  }

  function Run(s: Profile, es: seq<Event>): Profile
    decreases |es|
  {
    if |es| == 0 then s else Run(Apply(s, es[0]), es[1..])
  }

  /** The generation counter never goes back, whatever happens. */
  lemma {:induction false} RunCounterMonotone(s: Profile, es: seq<Event>)
    ensures Run(s, es).counter >= s.counter
    decreases |es|
  {
    if |es| > 0 {
      RunCounterMonotone(Apply(s, es[0]), es[1..]);
    }
  }

  /** Staleness: once a newer `collectProfile` has moved the counter past a
      generation, that generation's fan-in publishes nothing, dispatches
      nothing and changes no range, after any further events. */
  lemma StaleResultIgnored(s: Profile, es: seq<Event>, gen: nat)
    requires gen < s.counter
    ensures var t := Run(s, es);
      var r := Apply(t, Settled(gen));
      && r.pointsReady == t.pointsReady && r.drawData == t.drawData && r.dispatched == t.dispatched
      && r.minX == t.minX && r.maxX == t.maxX && r.minY == t.minY && r.maxY == t.maxY
  {
    RunCounterMonotone(s, es);
  }

  /** A generation one of whose callbacks threw never settles: its fan-in
      is not enabled after any further events. */
  lemma {:induction false} StuckNeverSettles(s: Profile, es: seq<Event>, gen: nat)
    requires gen in s.stuck
    ensures gen in Run(s, es).stuck
    ensures !Enabled(Run(s, es), Settled(gen))
    decreases |es|
  {
    if |es| > 0 {
      StuckNeverSettles(Apply(s, es[0]), es[1..], gen);
    }
  }

  /** A callback does not look at the generation that issued its query:
      a stale query and a current one with the same slot, height and
      elevation leave the same samples, flag and range behind. */
  lemma CallbackIgnoresGeneration(s: Profile, q: Query, stale: nat, current: nat, elv: Elevation)
    requires Pending(stale, q) in s.inFlight && Pending(current, q) in s.inFlight
    requires q.index < |s.work.ground|
    ensures var a := HeightCallback(s, Pending(stale, q), elv);
      var b := HeightCallback(s, Pending(current, q), elv);
      a.work == b.work && a.isWarning == b.isWarning && a.drawData == b.drawData && a.stuck == b.stuck
  {
  }

  /** What every reachable state satisfies: the running range is ordered and
      every query in flight belongs to an issued generation. */
  predicate Inv(s: Profile) {
    && s.work.range.lo <= s.work.range.hi
    && (forall p :: p in s.inFlight ==> 1 <= p.gen <= s.counter)
  }

  lemma InitInv()
    ensures Inv(Init())
  {
  }

  lemma StepPreservesInv(s: Profile, e: Event)
    requires Inv(s) && Enabled(s, e)
    ensures Inv(Step(s, e))
  {
    match e
    case Collect(t) =>
      if |t.heights| > 0 {
        SamplerProperties.SampleRange(t);
      }
    case _ =>
  }

  lemma {:induction false} RunPreservesInv(s: Profile, es: seq<Event>)
    requires Inv(s)
    ensures Inv(Run(s, es))
    decreases |es|
  {
    if |es| > 0 {
      if Enabled(s, es[0]) {
        StepPreservesInv(s, es[0]);
      }
      RunPreservesInv(Apply(s, es[0]), es[1..]);
    }
  }

  /** Every commit reachable from the constructor stores a display range
      that contains the collected range with its padding. */
  lemma CommitRangeOrdered(es: seq<Event>)
    ensures var t := Run(Init(), es);
      var r := Apply(t, Settled(t.counter));
      t.counter >= 1 && Enabled(t, Settled(t.counter)) ==>
        r.pointsReady && r.minY <= t.work.range.lo <= t.work.range.hi <= r.maxY
  {
    InitInv();
    RunPreservesInv(Init(), es);
  }
}
