/**
  The EarthNavigation control's zoom index and rotation inertia, with the
  camera, quaternion and ray geometry abstracted to the values they hand
  back: whether a point was grabbed, whether a drag hit the sphere and at
  what angle, whether the camera is flying, whether the damped rotation
  came out as the identity.
 */
module EarthNavigation {
  import opened Wrappers
  import Ranges

  /** One entry of `positionState`: a flight altitude and the latitude
      limits of a drag at that zoom level. */
  datatype ZoomLevel = ZoomLevel(h: real, max: real, min: real)

  const POSITION_STATE: seq<ZoomLevel> := [
    ZoomLevel(17119745.303455353, 0.98, -0.98),
    ZoomLevel(6866011.0, 0.98, -0.98),
    ZoomLevel(3000000.0, 0.98, -0.98),
    ZoomLevel(1000000.0, 0.98, -0.98),
    ZoomLevel(500000.0, 0.98, -0.98)
  ]

  const DEFAULT_INERTIA: real := 0.007

  /** Cursor travel, in pixels per axis, below which a release counts as
      a click rather than the end of a drag. */
  const CLICK_TOLERANCE: real := 3.0

  /** `_vRot` and `_hRot`: the cleared quaternion, or one a drag or a draw
      computed. */
  datatype Rotation = Cleared | Computed

  datatype Nav = Nav(scaleRot: real, a: real, vRot: Rotation, hRot: Rotation, currState: int, inertia: real)

  /** The constructor. */
  function Init(): Nav {
    Nav(0.0, 0.0, Cleared, Cleared, 0, DEFAULT_INERTIA)
  }

  /** `stopRotation` */
  function StopRotation(n: Nav): (r: Nav)
    ensures r.scaleRot == 0.0 && r.a == 0.0 && r.vRot == Cleared && r.hRot == Cleared
    ensures r.currState == n.currState && r.inertia == n.inertia
  {
    n.(scaleRot := 0.0, a := 0.0, vRot := Cleared, hRot := Cleared)
  }

  /** The two guards after the step: at most 0 becomes 0, at least the
      number of levels becomes the last level. */
  function ClampState(i: int): (r: int)
    ensures 0 <= r < |POSITION_STATE|
    ensures 0 <= i < |POSITION_STATE| ==> r == i
    ensures i < 0 ==> r == 0
    ensures i >= |POSITION_STATE| ==> r == |POSITION_STATE| - 1
  {
    var lower := if i <= 0 then 0 else i;
    if lower >= |POSITION_STATE| then |POSITION_STATE| - 1 else lower
  }

  /** What `switchZoomState` leaves behind: the control, and the altitude
      it asks the planet to fly to. */
  datatype Zoom = Zoom(nav: Nav, altitude: real)

  /** `switchZoomState`: stop the rotation, step the zoom index up for a
      positive wheel delta and down otherwise (zero included), clamp, fly
      to that level's altitude. */
  function SwitchZoomState(n: Nav, wheelDelta: real): (z: Zoom)
    ensures 0 <= z.nav.currState < |POSITION_STATE|
    ensures z.altitude == POSITION_STATE[z.nav.currState].h
    ensures z.nav == StopRotation(n).(currState := z.nav.currState)
    ensures 0 <= n.currState < |POSITION_STATE| ==>
      z.nav.currState == (if wheelDelta > 0.0 then Min(n.currState + 1, |POSITION_STATE| - 1)
                          else Max(n.currState - 1, 0))
  {
    var stopped := StopRotation(n);
    var stepped := if wheelDelta > 0.0 then n.currState + 1 else n.currState - 1;
    var state := ClampState(stepped);
    Zoom(stopped.(currState := state), POSITION_STATE[state].h)
  }

  function Min(x: int, y: int): int {
    if x <= y then x else y
  }

  function Max(x: int, y: int): int {
    if x >= y then x else y
  }

  /** A deeper zoom level flies lower. */
  lemma AltitudeDecreasesWithLevel(i: int, j: int)
    requires 0 <= i < j < |POSITION_STATE|
    ensures POSITION_STATE[j].h < POSITION_STATE[i].h
  {
  }

  /** Zooming in lowers the requested altitude unless the deepest level is
      already reached, and zooming out raises it unless the highest is. */
  lemma ZoomMovesAltitude(n: Nav, wheelDelta: real)
    requires 0 <= n.currState < |POSITION_STATE|
    ensures var z := SwitchZoomState(n, wheelDelta);
      && (wheelDelta > 0.0 && n.currState < |POSITION_STATE| - 1 ==> z.altitude < POSITION_STATE[n.currState].h)
      && (wheelDelta <= 0.0 && n.currState > 0 ==> z.altitude > POSITION_STATE[n.currState].h)
      && (wheelDelta > 0.0 && n.currState == |POSITION_STATE| - 1 ==> z.altitude == POSITION_STATE[n.currState].h)
      && (wheelDelta <= 0.0 && n.currState == 0 ==> z.altitude == POSITION_STATE[0].h)
  {
    var z := SwitchZoomState(n, wheelDelta);
    if wheelDelta > 0.0 && n.currState < |POSITION_STATE| - 1 {
      AltitudeDecreasesWithLevel(n.currState, z.nav.currState);
    }
    if wheelDelta <= 0.0 && n.currState > 0 {
      AltitudeDecreasesWithLevel(z.nav.currState, n.currState);
    }
  }

  /** `k` wheel steps in the same direction. */
  function Zooms(n: Nav, wheelDelta: real, k: nat): Nav
    decreases k
  {
    if k == 0 then n else Zooms(SwitchZoomState(n, wheelDelta).nav, wheelDelta, k - 1)
  }

  /** Repeated steps move one level each and saturate at the ends. */
  lemma {:induction false} ZoomsSaturate(n: Nav, wheelDelta: real, k: nat)
    requires 0 <= n.currState < |POSITION_STATE|
    ensures wheelDelta > 0.0 ==> Zooms(n, wheelDelta, k).currState == Min(n.currState + k, |POSITION_STATE| - 1)
    ensures wheelDelta <= 0.0 ==> Zooms(n, wheelDelta, k).currState == Max(n.currState - k, 0)
    decreases k
  {
    if k > 0 {
      ZoomsSaturate(SwitchZoomState(n, wheelDelta).nav, wheelDelta, k - 1);
    }
  }

  /** Whether a release is a click: both axes moved less than the tolerance. */
  predicate IsClick(dx: real, dy: real) {
    Ranges.Abs(dx) < CLICK_TOLERANCE && Ranges.Abs(dy) < CLICK_TOLERANCE
  }

  /** `onMouseLeftButtonUp`, with `dx = e.x - e.prev_x` and `dy = e.y - e.prev_y`:
      inertia is armed at full strength, then a click stops it. */
  function MouseLeftButtonUp(n: Nav, dx: real, dy: real): (r: Nav)
    ensures IsClick(dx, dy) ==> r == StopRotation(n)
    ensures !IsClick(dx, dy) ==> r == n.(scaleRot := 1.0)
    ensures r.scaleRot == 0.0 <==> IsClick(dx, dy)
    ensures r.scaleRot == 1.0 <==> !IsClick(dx, dy)
  {
    var armed := n.(scaleRot := 1.0);
    if IsClick(dx, dy) then StopRotation(armed) else armed
  }

  /** `onTouchEnd`, with `touches` the number of fingers still down and
      `dx`, `dy` the last move of the first touch. */
  function TouchEnd(n: Nav, touches: nat, dx: real, dy: real): (r: Nav)
    ensures touches != 0 ==> r == n
    ensures touches == 0 ==> (r.scaleRot == 0.0 <==> IsClick(dx, dy))
    ensures touches == 0 && !IsClick(dx, dy) ==> r == n.(scaleRot := 1.0)
    ensures touches == 0 && IsClick(dx, dy) ==> r == StopRotation(n)
  {
    if touches != 0 then n
    else
      var armed := n.(scaleRot := 1.0);
      if IsClick(dx, dy) then StopRotation(armed) else armed
  }

  /** The last finger lifting behaves exactly like a mouse release. */
  lemma TouchEndIsMouseUp(n: Nav, dx: real, dy: real)
    ensures TouchEnd(n, 0, dx, dy) == MouseLeftButtonUp(n, dx, dy)
  {
  }

  /** `onTouchStart` with one touch, and `onMouseLeftButtonClick`: grabbing
      a point of the terrain stops the rotation. */
  function Grab(n: Nav, grabbed: bool): (r: Nav)
    ensures grabbed ==> r == StopRotation(n)
    ensures !grabbed ==> r == n
  {
    if grabbed then StopRotation(n) else n
  }

  /** `onMouseLeftButtonDown` (the held-button handler): nothing without a
      grabbed point or while flying; a moving cursor whose ray hits the
      grabbed sphere sets the drag angle and both rotations; a still one
      stops the inertia. */
  function MouseLeftButtonDown(n: Nav, grabbed: bool, flying: bool, moving: bool, hitAngle: Option<real>): (r: Nav)
    ensures !grabbed || flying ==> r == n
    ensures grabbed && !flying && !moving ==> r == n.(scaleRot := 0.0)
    ensures grabbed && !flying && moving && hitAngle.Some? ==>
      r == n.(a := hitAngle.value, vRot := Computed, hRot := Computed)
    // a moving cursor whose ray misses the sphere changes nothing
    ensures grabbed && !flying && moving && hitAngle.None? ==> r == n
    ensures r.scaleRot == n.scaleRot || r.scaleRot == 0.0
    ensures r.currState == n.currState && r.inertia == n.inertia
  {
    if !grabbed || flying then n
    else if moving then
      (match hitAngle
       case None => n
       case Some(angle) => n.(a := angle, vRot := Computed, hRot := Computed))
    else n.(scaleRot := 0.0)
  }

  /** `onDraw`: unless the button is down, the inertia is spent or the
      camera flies, `scaleRot` loses `inertia` and is clamped at 0; while
      still positive the rotation is recomputed, and a damped rotation that
      comes out as the identity stops it. */
  function OnDraw(n: Nav, leftButtonDown: bool, flying: bool, rotIsIdentity: bool): (r: Nav)
    ensures leftButtonDown || n.scaleRot == 0.0 || flying ==> r == n
    ensures !(leftButtonDown || n.scaleRot == 0.0 || flying) ==>
      && r.scaleRot >= 0.0
      && (r.scaleRot == 0.0 || r.scaleRot == n.scaleRot - n.inertia)
      && (n.scaleRot - n.inertia <= 0.0 ==> r == n.(scaleRot := 0.0))
      && (n.scaleRot - n.inertia > 0.0 && !rotIsIdentity ==> r.scaleRot == n.scaleRot - n.inertia)
      && (n.scaleRot - n.inertia > 0.0 && rotIsIdentity ==> r.scaleRot == 0.0)
    // positive inertia makes a positive scaleRot strictly smaller
    ensures n.inertia > 0.0 && n.scaleRot > 0.0 && !leftButtonDown && !flying ==> r.scaleRot < n.scaleRot
    ensures r.currState == n.currState && r.inertia == n.inertia && r.a == n.a && r.hRot == n.hRot
  {
    if leftButtonDown || n.scaleRot == 0.0 || flying then n
    else
      var decayed := n.scaleRot - n.inertia;
      if decayed <= 0.0 then n.(scaleRot := 0.0)
      else n.(vRot := Computed, scaleRot := if rotIsIdentity then 0.0 else decayed)
  }

  /** `k` frames with the button up, the camera still and the damped
      rotation never the identity. */
  function Coast(n: Nav, k: nat): Nav
    decreases k
  {
    if k == 0 then n else Coast(OnDraw(n, false, false, false), k - 1)
  }

  /** Reference meaning of coasting: `scaleRot` falls linearly by `inertia`
      per frame and stays at 0 once it gets there. */
  function Decayed(scaleRot: real, inertia: real, k: nat): real {
    var left := scaleRot - (k as real) * inertia;
    if left <= 0.0 then 0.0 else left
  }

  lemma {:induction false} CoastDecaysLinearly(n: Nav, k: nat)
    requires n.scaleRot >= 0.0 && n.inertia >= 0.0
    ensures Coast(n, k).scaleRot == Decayed(n.scaleRot, n.inertia, k)
    ensures Coast(n, k).inertia == n.inertia
    decreases k
  {
    if k > 0 {
      var n1 := OnDraw(n, false, false, false);
      CoastDecaysLinearly(n1, k - 1);
      assert Coast(n, k) == Coast(n1, k - 1);
      var kr := k as real;
      assert ((k - 1) as real) * n.inertia == kr * n.inertia - n.inertia;
      if n.scaleRot == 0.0 {
        assert kr * n.inertia >= 0.0;
      } else if n.scaleRot - n.inertia <= 0.0 {
        assert n1.scaleRot == 0.0;
        assert ((k - 1) as real) * n.inertia >= 0.0;
        assert n.scaleRot - kr * n.inertia <= 0.0;
      }
    }
  }

  /** With positive inertia the rotation comes to rest after enough frames:
      any `k` with `k * inertia >= scaleRot`. */
  lemma ComesToRest(n: Nav, k: nat)
    requires n.scaleRot >= 0.0 && n.inertia > 0.0
    requires (k as real) * n.inertia >= n.scaleRot
    ensures Coast(n, k).scaleRot == 0.0
  {
    CoastDecaysLinearly(n, k);
  }

  datatype Event =
    | Wheel(wheelDelta: real)
    | LeftUp(dx: real, dy: real)
    | TouchLifted(touches: nat, dx: real, dy: real)
    | Grabbed(grabbed: bool)
    | LeftHeld(grabbed: bool, flying: bool, moving: bool, hitAngle: Option<real>)
    | Draw(leftButtonDown: bool, flying: bool, rotIsIdentity: bool)

  function Step(n: Nav, e: Event): Nav {
    match e
    case Wheel(d) => SwitchZoomState(n, d).nav
    case LeftUp(dx, dy) => MouseLeftButtonUp(n, dx, dy)
    case TouchLifted(c, dx, dy) => TouchEnd(n, c, dx, dy)
    case Grabbed(g) => Grab(n, g)
    case LeftHeld(g, f, m, h) => MouseLeftButtonDown(n, g, f, m, h)
    case Draw(b, f, i) => OnDraw(n, b, f, i)
  }

  function Run(n: Nav, es: seq<Event>): Nav
    decreases |es|
  {
    if |es| == 0 then n else Run(Step(n, es[0]), es[1..])
  }

  /** What every state reachable from the constructor satisfies: the
      inertia strength lies in [0, 1] and the zoom index names a level. */
  predicate Inv(n: Nav) {
    0.0 <= n.scaleRot <= 1.0 && 0 <= n.currState < |POSITION_STATE| && n.inertia >= 0.0
  }

  lemma StepPreservesInv(n: Nav, e: Event)
    requires Inv(n)
    ensures Inv(Step(n, e))
  {
  }

  lemma {:induction false} RunPreservesInv(n: Nav, es: seq<Event>)
    requires Inv(n)
    ensures Inv(Run(n, es))
    decreases |es|
  {
    if |es| > 0 {
      StepPreservesInv(n, es[0]);
      RunPreservesInv(Step(n, es[0]), es[1..]);
    }
  }

  /** From the constructor, whatever happens, `scaleRot` stays in [0, 1]
      and the requested altitude is one of the five levels. */
  lemma ReachableStatesBounded(es: seq<Event>)
    ensures var n := Run(Init(), es);
      0.0 <= n.scaleRot <= 1.0 && 0 <= n.currState < |POSITION_STATE|
  {
    RunPreservesInv(Init(), es);
  }
}
