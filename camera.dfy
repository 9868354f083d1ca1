/**
 * The camera scalars of the render loop (the scalar part of tick in a9.js):
 * each frame measures the time since the previous frame, stores the new
 * timestamp, and moves height, orbit angle and distance at a fixed speed per
 * millisecond according to the movement flags, never letting forward motion
 * bring the camera closer than distance 1.
 */
module Camera {
  import opened Input

  /** Height and distance change per millisecond while their key is held. */
  const CAMERA_SPEED: real := 0.003
  /** Orbit angle change, in degrees, per millisecond while its key is held. */
  const CAMERA_ROT_SPEED: real := 0.1
  /** The closest the camera may come to the teapot by moving forward. */
  const MIN_DISTANCE: real := 1.0

  /** The three camera scalars. */
  datatype Orbit = Orbit(height: real, angle: real, distance: real)

  /** Where startRendering places the camera: in front of and a little above the teapot. */
  const InitialOrbit := Orbit(0.2, 90.0, 1.5)

  function Max(a: real, b: real): (m: real)
    ensures m >= a && m >= b && (m == a || m == b)
  {
    if a >= b then a else b
  }

  /**
   * The effect of one frame of deltaTime milliseconds under flags f. Opposing
   * vertical or rotational keys cancel, a direction whose key is up leaves its
   * scalar alone, forward motion is clamped at MIN_DISTANCE before any backward
   * motion is added, and so, with time not running backwards, a camera at
   * distance at least MIN_DISTANCE stays there.
   */
  function Advance(o: Orbit, deltaTime: real, f: Flags): (r: Orbit)
    ensures f.up == f.down ==> r.height == o.height
    ensures f.up && !f.down ==> r.height == o.height + CAMERA_SPEED * deltaTime
    ensures !f.up && f.down ==> r.height == o.height - CAMERA_SPEED * deltaTime
    ensures f.left == f.right ==> r.angle == o.angle
    ensures f.left && !f.right ==> r.angle == o.angle + CAMERA_ROT_SPEED * deltaTime
    ensures !f.left && f.right ==> r.angle == o.angle - CAMERA_ROT_SPEED * deltaTime
    ensures !f.forward && !f.backward ==> r.distance == o.distance
    ensures f.forward && !f.backward ==> r.distance == Max(o.distance - CAMERA_SPEED * deltaTime, MIN_DISTANCE)
    ensures f.forward && f.backward ==>
      r.distance == Max(o.distance - CAMERA_SPEED * deltaTime, MIN_DISTANCE) + CAMERA_SPEED * deltaTime
    ensures !f.forward && f.backward ==> r.distance == o.distance + CAMERA_SPEED * deltaTime
    ensures o.distance >= MIN_DISTANCE && deltaTime >= 0.0 ==> r.distance >= MIN_DISTANCE
  {
    var step := CAMERA_SPEED * deltaTime;
    var turn := CAMERA_ROT_SPEED * deltaTime;
    var height := o.height + (if f.up then step else 0.0) - (if f.down then step else 0.0);
    var angle := o.angle + (if f.left then turn else 0.0) - (if f.right then turn else 0.0);
    var closer := if f.forward then Max(o.distance - step, MIN_DISTANCE) else o.distance;
    var distance := if f.backward then closer + step else closer;
    Orbit(height, angle, distance)
  }

  /**
   * With both forward and backward held, the two cancel exactly when forward
   * motion does not reach the clamp; at the clamp the camera drifts outwards
   * (or, with a clock that went back, inwards).
   */
  lemma ForwardBackwardCancel(o: Orbit, deltaTime: real, f: Flags)
    requires f.forward && f.backward
    ensures Advance(o, deltaTime, f).distance == o.distance
        <==> o.distance - CAMERA_SPEED * deltaTime >= MIN_DISTANCE
  {
  }

  /** One frame as the render loop sees it: the clock reading and the flags held. */
  datatype Frame = Frame(now: int, flags: Flags)

  /** The orbit after a run of frames, starting from timestamp `last`. */
  function Run(o: Orbit, last: int, frames: seq<Frame>): Orbit
    decreases |frames|
  {
    if frames == [] then o
    else Run(Advance(o, (frames[0].now - last) as real, frames[0].flags), frames[0].now, frames[1..])
  }

  /** The clock readings never go backwards from `last` on. */
  predicate Monotone(last: int, frames: seq<Frame>)
    decreases |frames|
  {
    frames == [] || (last <= frames[0].now && Monotone(frames[0].now, frames[1..]))
  }

  /**
   * Over any run of frames with a clock that does not go backwards, whatever
   * keys are held, the distance never drops below MIN_DISTANCE once it is there.
   */
  lemma {:induction false} DistanceStaysClamped(o: Orbit, last: int, frames: seq<Frame>)
    requires o.distance >= MIN_DISTANCE
    requires Monotone(last, frames)
    ensures Run(o, last, frames).distance >= MIN_DISTANCE
    decreases |frames|
  {
    if frames != [] {
      var next := Advance(o, (frames[0].now - last) as real, frames[0].flags);
      DistanceStaysClamped(next, frames[0].now, frames[1..]);
    }
  }

  /**
   * A run with no key held leaves the orbit where it was, however long it lasts.
   */
  lemma {:induction false} IdleRunIsStill(o: Orbit, last: int, frames: seq<Frame>)
    requires forall i :: 0 <= i < |frames| ==> frames[i].flags == NoKeys
    ensures Run(o, last, frames) == o
    decreases |frames|
  {
    if frames != [] {
      IdleRunIsStill(Advance(o, (frames[0].now - last) as real, frames[0].flags), frames[0].now, frames[1..]);
    }
  }

  /** The camera globals updated by each tick. */
  class CameraState {
    var cameraHeight: real
    var cameraAngle: real
    var cameraDistance: real
    var lastFrameMS: int

    /** The camera scalars as a value. */
    function Current(): Orbit
      reads this
    {
      Orbit(cameraHeight, cameraAngle, cameraDistance)
    }

    /** The initialisation in startRendering, with the clock read just before the first tick. */
    constructor (now: int)
      ensures Current() == InitialOrbit && lastFrameMS == now
    {
      cameraDistance := 1.5;
      cameraAngle := 90.0;
      cameraHeight := 0.2;
      lastFrameMS := now;
    }

    /**
     * One tick at clock reading `now` with the flags held in `keys`:
     * deltaTime is now minus the previous timestamp, the timestamp becomes now,
     * and the scalars move as Advance says.
     */
    method Tick(now: int, keys: KeyState)
      modifies this
      ensures lastFrameMS == now
      ensures Current() == Advance(old(Current()), (now - old(lastFrameMS)) as real, keys.Current())
      ensures old(cameraDistance) >= MIN_DISTANCE && now >= old(lastFrameMS) ==> cameraDistance >= MIN_DISTANCE
    {
      var deltaTime := (now - lastFrameMS) as real;
      ghost var target := Advance(Current(), deltaTime, keys.Current());
      lastFrameMS := now;
      if keys.movingUp {
        cameraHeight := cameraHeight + CAMERA_SPEED * deltaTime;
      }
      if keys.movingDown {
        cameraHeight := cameraHeight - CAMERA_SPEED * deltaTime;
      }
      assert cameraHeight == target.height;
      if keys.movingLeft {
        cameraAngle := cameraAngle + CAMERA_ROT_SPEED * deltaTime;
      }
      if keys.movingRight {
        cameraAngle := cameraAngle - CAMERA_ROT_SPEED * deltaTime;
      }
      assert cameraAngle == target.angle;
      if keys.movingForward {
        cameraDistance := cameraDistance - CAMERA_SPEED * deltaTime;
        cameraDistance := Max(cameraDistance, MIN_DISTANCE);
      }
      if keys.movingBackward {
        cameraDistance := cameraDistance + CAMERA_SPEED * deltaTime;
      }
    }
  }
}
