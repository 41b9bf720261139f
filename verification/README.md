# Elevation profile and Earth navigation: a Dafny model

This project models two parts of a web globe's flight controls.

- **The elevation-profile engine** (`ElevationProfile.js`). It lays a track of waypoints over the terrain and produces the following:
  - a track entry per waypoint;
  - a ground sample at every waypoint and every metre in between;
  - one asynchronous height query per ground sample;
  - a safety level per sample: SAFE, WARNING or COLLISION;
  - a padded display range.

  A generation counter decides whether a finished collection may publish its result.
- **The zoom and inertia state machine** of `EarthNavigation.ts`, covering:
  - the zoom index clamped into five altitude levels;
  - stopping a rotation;
  - the 3-pixel rule that separates a click from a drag;
  - the per-frame decay of the rotation inertia `scaleRot`.

Modules:

- `Wrappers` holds `Option`.
- `Classifier` holds the per-sample rule (`_setPointType`) and the whole-profile re-classification (`_setPointsType`). The method `SetPointsType` is the source loop, proved equal to the reference `Reclassified`.
- `Ranges` holds the guarded min/max updates of the height callbacks and the padding applied at commit.
- `Sampler` models the synchronous part of `collectProfile`.
  - It has a functional description: `SegmentStep`, `After` and `Sample`.
  - It has the source's loops with in-place slot writes: `CollectCoordsBetweenTwoTrackPoints`, `CollectSegment` and `CalcPoints`, each proved to compute the functional description.
  - `SamplerProperties` proves the layout: counts, no gaps, monotone distances, slot positions and the range.
- `ProfileStore` models the ElevationProfile object.
  - The object is a record. Its operations are events: `collectProfile`, a height callback, the fan-in of one generation, `setWarningHeightLevel`, `setRange`, `_setPointsType` and `clear`.
  - JavaScript arrays are shared by reference. After a commit or a re-classification, `_drawData[GROUND]` is the very array the height callbacks write into. `DrawGround` records whether the two are shared, and `PublishedGround` reads the samples on display.
  - Queries in flight are a set tagged with their generation.
  - A callback whose slot index is past the end of the current array throws. Its generation's `Promise.all` then never settles; that generation is recorded as stuck.
  - Dispatches are a log.
- `ProfileScenarios` gives concrete runs showing what the generation guard does not protect:
  - A superseded collection's height callback still writes into the newer collection's samples and can raise `isWarningOrCollision`. The newer collection can then commit with the flag raised although none of its samples is WARNING or COLLISION.
  - A superseded collection's callback that arrives after the newer collection has committed rewrites the samples on display, without a dispatch.
  - `clear` does not cancel a collection in flight.
  - A stale callback that lands past the end of a shorter array leaves its generation stuck forever.
- `EarthNavigation` models the control's scalar state.
  - Quaternions are abstracted to "cleared" or "computed".
  - The camera, the grabbed point and the ray hit are replaced by the values they hand back.

Behaviour of the code a reader may not expect:

- `clear` keeps the display ranges. It resets only the flags, the published data and the accumulators (ElevationProfile.js:257-267).
- `collectProfile` with no waypoints still drops `pointsReady` and the warning flag (ElevationProfile.js:209-212). A single waypoint is not a no-op: it collects one track entry and one ground sample.
- `setWarningHeightLevel` only stores the threshold; nothing is re-classified (ElevationProfile.js:56-58).
- A newer collection does not isolate itself from an older one's height callbacks (ElevationProfile.js:69-74, 238-240).

## Model

| member | source | states |
|---|---|---|
| Classifier.PointType | src/og/control/elevationProfile/ElevationProfile.js:228-236 | A track height within 1 m above the ground, or below it, is COLLISION whatever the warning threshold. A freshly reset sample is WARNING exactly when `ground + 1 < height < ground + W - 0.1` and `height >= ground`, and SAFE exactly when neither band applies. Outside both bands the level stays whatever it was, so a stale WARNING is kept. Inside the warning band only, the level becomes WARNING, even from COLLISION. A WARNING or COLLISION level never becomes SAFE again. A NaN elevation or a missing height leaves the level as it was. |
| Classifier.SetPointType | src/og/control/elevationProfile/ElevationProfile.js:228-241 | Only the level of the given sample changes. The warning flag is never cleared: the result is the old flag OR "the new level is not SAFE". |
| Classifier.SetPointsType | src/og/control/elevationProfile/ElevationProfile.js:243-251 | The loop re-derives every sample's level from the level it held, which equals the reference `Reclassified`. Distance, elevation and height of every sample are untouched. The reset-then-OR flag ends up true exactly when some sample is WARNING or COLLISION. |
| Classifier.ReclassifiedIdempotent | src/og/control/elevationProfile/ElevationProfile.js:228-251 | Re-classifying twice with the same threshold gives the same samples as re-classifying once. |
| Ranges.Accumulate | src/og/control/elevationProfile/ElevationProfile.js:95-98 | One guarded min/max update, as in the interior handler here and the boundary handler at lines 148-150. It only widens the range. A contributing elevation ends up inside the range, and the range moves only to that elevation. A NaN, or an exact 0 from a boundary query (falsy in JavaScript), leaves the range unchanged. |
| Ranges.AccumulateAllBounds | src/og/control/elevationProfile/ElevationProfile.js:147-151 | After any sequence of deliveries, the range contains the starting range and every contributing elevation. Each end is either the starting end or one of those elevations, so a non-contributing delivery leaves no trace. |
| Ranges.Pad | src/og/control/elevationProfile/ElevationProfile.js:219 | Each end moves outward by a tenth of its own magnitude, so the stored display range contains the collected range. An end moves exactly when it is non-zero. An ordered range stays ordered after padding. |
| Sampler.InternalPoints | src/og/control/elevationProfile/ElevationProfile.js:121 | The interior sample count is the floor of the projected length over the 1 m spacing. |
| Sampler.SegmentStep | src/og/control/elevationProfile/ElevationProfile.js:109-140 | One segment adds exactly `projLen` to the distance, with the residual included. The slot index and the ground and query counts each grow by the interior count plus one. The departure slot sits at the running distance and carries the departure waypoint's boundary query. A zero-length segment adds only its boundary slot. |
| Sampler.SegmentStepLayout | src/og/control/elevationProfile/ElevationProfile.js:81-94 | Earlier slots and queries are untouched. Interior slot `j` of the segment is a placeholder `j` metres past the departure waypoint, and its query carries slot index `index + j` and the `j`-th interpolated height, not flagged as a boundary. |
| Sampler.InteriorCountIsFloor | src/og/control/elevationProfile/ElevationProfile.js:121 | A segment's interior sample count lies in the one-metre window of its projected length exactly when it is the floor of the length over the spacing. |
| Sampler.After | src/og/control/elevationProfile/ElevationProfile.js:104-141 | After `m` segments, the distance is the sum of their projected lengths. The slot index, the ground count and the query count are all `m` plus the interior counts. There are `m + 1` track entries. |
| Sampler.CollectCoordsBetweenTwoTrackPoints | src/og/control/elevationProfile/ElevationProfile.js:80-102 | The interior loop writes `k` placeholder slots one metre apart after the boundary slot. It issues one query per slot, carrying the slot's index and the interpolated track height. |
| Sampler.CollectSegment | src/og/control/elevationProfile/ElevationProfile.js:109-140 | One iteration of the outer loop, with in-place slot writes, computes `SegmentStep`. This includes the first segment, whose boundary query overwrites the placeholder pre-seeded at index 0. |
| Sampler.CalcPoints | src/og/control/elevationProfile/ElevationProfile.js:168-181 | The whole synchronous layout, loops as written, computes `Sample`. |
| SamplerProperties.AfterTrack | src/og/control/elevationProfile/ElevationProfile.js:135-139 | Track entry `i` holds waypoint `i`'s height at the cumulative projected distance of the segments before it. |
| SamplerProperties.AfterPrefix | src/og/control/elevationProfile/ElevationProfile.js:104-141 | Processing more segments only appends: every ground slot and query laid out after `m1` segments is still there, unchanged, after `m2 >= m1` segments. |
| SamplerProperties.SampleCounts | src/og/control/elevationProfile/ElevationProfile.js:168-181 | There are as many track entries as waypoints. There are as many ground samples and queries as waypoints plus the interior counts. |
| SamplerProperties.SampleSlotsFilled | src/og/control/elevationProfile/ElevationProfile.js:90-94 | There are no gaps: query `x` writes slot `x`, and every slot holds a placeholder before any height arrives. |
| SamplerProperties.SampleDistances | src/og/control/elevationProfile/ElevationProfile.js:82-90 | Ground distances start at 0 and never decrease. The last one equals the total projected length, which is also the distance the collection reports. Each track entry sits at its cumulative distance. |
| SamplerProperties.SampleBoundarySlots | src/og/control/elevationProfile/ElevationProfile.js:143-146 | Waypoint `i`'s boundary slot is at position `i + (interior samples before it)`, at the waypoint's cumulative distance. Its query carries the waypoint's height and is flagged as a boundary query. |
| SamplerProperties.SampleInteriorSlotAt | src/og/control/elevationProfile/ElevationProfile.js:81-94 | The `j`-th interior slot of segment `i` lies `j` metres past the departure waypoint. Its query carries the `j`-th interpolated height and is not a boundary query. |
| SamplerProperties.SampleRange | src/og/control/elevationProfile/ElevationProfile.js:135-137 | Before any height arrives, the range is ordered, contains every waypoint height, and each end is one of them. |
| SamplerProperties.SingleWaypoint | src/og/control/elevationProfile/ElevationProfile.js:170-179 | A single waypoint lays out one track entry and one boundary sample at distance 0 with one query, and its height is the whole range. |
| ProfileStore.Detach | src/og/control/elevationProfile/ElevationProfile.js:174 | Pointing the work array at a fresh array leaves the published samples' contents as they were. |
| ProfileStore.Issued | src/og/control/elevationProfile/ElevationProfile.js:145-146 | A generation's in-flight set holds exactly its own queries, each tagged with that generation. |
| ProfileStore.CollectProfile | src/og/control/elevationProfile/ElevationProfile.js:208-226 | Both flags drop. Without waypoints nothing else changes, not even the counter. Otherwise the counter moves up by one and the accumulators become the sampler's layout. Every query goes out tagged with the new generation; older queries stay in flight, and the stuck and settled generations are kept. The published track and samples keep their contents, with the ground array detached from the new work. The ranges, the threshold and the dispatch log are unchanged. |
| ProfileStore.HeightCallback | src/og/control/elevationProfile/ElevationProfile.js:67-78 | The callback never checks the generation. If the slot exists, only that slot changes: its elevation and height are written, its level is reset and re-classified, and the flag ORs in the new level. The range takes the guarded update. The threshold and the dispatch log stay. `_drawData` keeps its arrays; when its ground array is the work array, the written slot shows in the published samples. If the slot is past the end, nothing changes except that the generation becomes stuck. |
| ProfileStore.Resolve | src/og/control/elevationProfile/ElevationProfile.js:216-223 | The guard, run when the fan-in of `_collectPromise` (lines 156-166) settles. A stale generation changes nothing visible. The current one does all of the following: sets `pointsReady`; publishes the work track and the work ground array itself, so later writes to it show on display; stores x-range `[0, dist]` and y-range `Pad(range)`, which contains the collected range and is ordered when that is; appends exactly one dispatch. The threshold, the work and the queries in flight stay. |
| ProfileStore.Clear | src/og/control/elevationProfile/ElevationProfile.js:257-267 | The flags drop, the published data goes, and the accumulators return to one track entry and one placeholder at 0. The ranges, the threshold, the counter, the queries in flight, the stuck and settled generations and the dispatch log are kept. |
| ProfileStore.ReclassifyProfile | src/og/control/elevationProfile/ElevationProfile.js:243-255 | With nothing published, only the flag drops (the next line throws). Otherwise the work track and samples are re-pointed at the published arrays, so the published ground array is the work array again, every published sample's level is re-derived and nothing else about it changes. The distance, the range, the threshold and the stuck and settled generations stay. The flag becomes the OR over all samples, and one dispatch carries the result. |
| ProfileStore.SetWarningHeightLevel | src/og/control/elevationProfile/ElevationProfile.js:56-58 | The threshold becomes the argument, or 0 without one. Nothing else changes and nothing is re-classified. |
| ProfileStore.SetRange | src/og/control/elevationProfile/ElevationProfile.js:60-65 | The four range bounds become the arguments and nothing else changes. |
| ProfileStore.Step | src/og/control/elevationProfile/ElevationProfile.js:208-267 | Only a non-empty `collectProfile` moves the counter, and only by one. A stuck generation stays stuck. Only a current fan-in or a re-classification with published data dispatches. |
| ProfileStore.RunCounterMonotone | src/og/control/elevationProfile/ElevationProfile.js:214 | The generation counter never decreases, whatever sequence of events happens. |
| ProfileStore.StaleResultIgnored | src/og/control/elevationProfile/ElevationProfile.js:216-218 | Once a newer collection has started, an older generation's fan-in never publishes, dispatches or changes a range, after any events. |
| ProfileStore.StuckNeverSettles | src/og/control/elevationProfile/ElevationProfile.js:69-76 | A generation one of whose callbacks threw never reaches its fan-in. |
| ProfileStore.StepPreservesInv | src/og/control/elevationProfile/ElevationProfile.js:171-172 | Every event keeps the collected range ordered and every in-flight query tagged with an issued generation. |
| ProfileStore.CommitRangeOrdered | src/og/control/elevationProfile/ElevationProfile.js:219-220 | Every commit reachable from the constructor stores a y-range that contains the collected range. |
| ProfileScenarios.StaleCallbackRaisesFlagOfNewerProfile | src/og/control/elevationProfile/ElevationProfile.js:69-74 | A superseded collection's callback lands in the newer collection's sample and raises the flag. That sample is later overwritten as SAFE, yet the newer collection's fan-in is enabled and commits with the flag raised and no alarming sample. |
| ProfileScenarios.LateCallbackRewritesPublishedSamples | src/og/control/elevationProfile/ElevationProfile.js:69-75 | Collection A is superseded by B; B's callback arrives, B's fan-in is enabled and commits, and A's callback then writes into the array B published: the samples on display change, with no dispatch. |
| ProfileScenarios.ClearDoesNotCancel | src/og/control/elevationProfile/ElevationProfile.js:257-267 | A collection in flight when `clear` runs still commits and dispatches afterwards. |
| ProfileScenarios.CallbackPastTheEndGetsStuck | src/og/control/elevationProfile/ElevationProfile.js:71 | A query for a sample the newer, shorter array lacks throws, and its generation can never settle. |
| EarthNavigation.StopRotation | src/og/control/EarthNavigation.ts:196-201 | `scaleRot` and the drag angle become 0 and both rotations are cleared. The zoom index is kept. |
| EarthNavigation.ClampState | src/og/control/EarthNavigation.ts:79-83 | The result always names a level. An index already in range is kept, a negative one becomes 0 and one past the end becomes the last level. |
| EarthNavigation.SwitchZoomState | src/og/control/EarthNavigation.ts:70-90 | The rotation is stopped first. The index moves one level deeper for a positive wheel delta and one level up otherwise (zero included), saturating at both ends. The altitude flown to is that level's `h`. |
| EarthNavigation.AltitudeDecreasesWithLevel | src/og/control/EarthNavigation.ts:59-65 | A deeper zoom level has a strictly lower altitude. |
| EarthNavigation.ZoomMovesAltitude | src/og/control/EarthNavigation.ts:73-89 | Zooming in strictly lowers the requested altitude unless the deepest level is already reached, in which case it stays. Zooming out strictly raises it unless the top level is reached. |
| EarthNavigation.ZoomsSaturate | src/og/control/EarthNavigation.ts:73-83 | `k` steps inward end at `min(index + k, 4)`; `k` steps outward end at `max(index - k, 0)`. |
| EarthNavigation.MouseLeftButtonUp | src/og/control/EarthNavigation.ts:203-208 | A release that moved less than 3 pixels on both axes is a click and stops the rotation (`scaleRot` 0). Any other release leaves `scaleRot` at 1 with everything else kept. |
| EarthNavigation.TouchEnd | src/og/control/EarthNavigation.ts:134-144 | While fingers remain, nothing changes. When the last one lifts, the same click-or-drag rule applies. |
| EarthNavigation.TouchEndIsMouseUp | src/og/control/EarthNavigation.ts:134-144 | The last finger lifting is exactly a mouse release. |
| EarthNavigation.Grab | src/og/control/EarthNavigation.ts:185-194 | Grabbing a terrain point stops the rotation; a miss changes nothing. |
| EarthNavigation.MouseLeftButtonDown | src/og/control/EarthNavigation.ts:210-240 | Without a grabbed point, or while flying, nothing changes. A still button sets `scaleRot` to 0. A moving cursor whose ray hits sets the drag angle and both rotations; one whose ray misses changes nothing. `scaleRot` never changes except to 0. |
| EarthNavigation.OnDraw | src/og/control/EarthNavigation.ts:242-274 | With the button down, `scaleRot` at 0 or the camera flying, nothing changes. Otherwise `scaleRot` loses `inertia`. When that reaches 0 it is clamped there and nothing else changes. Above 0, an identity rotation stops it. `scaleRot` is never negative. With positive inertia, a positive `scaleRot` strictly decreases. |
| EarthNavigation.CoastDecaysLinearly | src/og/control/EarthNavigation.ts:246-250 | Over `k` frames, `scaleRot` equals `max(0, scaleRot - k * inertia)`. |
| EarthNavigation.ComesToRest | src/og/control/EarthNavigation.ts:246-250 | With positive inertia, the rotation stops after any `k` frames with `k * inertia >= scaleRot`. |
| EarthNavigation.StepPreservesInv | src/og/control/EarthNavigation.ts:45-68 | Every event keeps `0 <= scaleRot <= 1`, the zoom index within the five levels, and the inertia non-negative. |
| EarthNavigation.ReachableStatesBounded | src/og/control/EarthNavigation.ts:56-57 | From the constructor, after any events, `scaleRot` lies in `[0, 1]` and the zoom index names a level. |

## Left out

- Ellipsoid geometry is not modelled: `lonLatToCartesianRes`, the surface normal, the tangent-plane projection and `cartesianToLonLat`. Each segment comes with its projected length and the heights of its interpolated points. The chord length is not carried: it only feeds `scaleFactor`, which only feeds the geometry.
- `terrain.getHeightAsync` and the geoid correction are not modelled. A callback event supplies the already corrected elevation, or NaN when the backend returns nothing.
- The promise plumbing is simplified:
  - A height callback and its `.then` min/max handler are one atomic event. Interleavings between the two are not modelled.
  - `Promise.all` settling and the counter check are one event.
  - `Deferred` and microtask ordering are not modelled beyond that.
- `events.dispatch` is a log of value snapshots. Later writes into a shared array are visible through `PublishedGround`, not through earlier log entries.
- Numbers are exact reals. Floating-point rounding of `_pDist`, of the residual `projLen - k` and of the padding is not modelled. Waypoint heights are always numbers.
- The `TRACK` entries' unused third element in the constructor and in `clear` is not modelled, and neither is `_pIndex`'s role beyond the slot positions.
- The EarthNavigation camera math is not modelled: quaternion products, `slerp`, `acos`, ray–sphere hits, `cam.set`/`cam.update`, `stopFlying`/`flyLonLat` (the altitude is returned instead), pixel offsets and canvas CSS classes.
  - The identity test after `slerp` is a boolean argument of `OnDraw`.
  - The write of `scaleRot` into the renderer's `controlsBag` is not modelled.
- `onTouchMove`, `onMouseWheel` (a plain forward to `switchZoomState`), `oninit` and `onactivate` (event registration) are not modelled.
- A `wheelDelta` that is `undefined` is not modelled; NaN compares like a non-positive number.
- A boundary query carries the waypoint's height as it was when the query was issued. The source reads `ll.height` from the caller's waypoint object when the callback runs, so waypoint objects are assumed unchanged while their queries are in flight.
- EarthNavigation.Inv: it assumes a non-negative `inertia`. The source never changes the default 0.007, but the field is public.
- `framebuffer.js` (WebGL resources) and `Ray.test.js` (`Ray.hitTriangle`, whose source is not part of this model) are not modelled.
