/** HMDDevice: the same sample smoothing as the controllers, the per-frame
    publishing with the view lock (which freezes the published orientation
    while it is requested), the fixed mount rotation, the desktop window
    settings and the display geometry. */
module HMD {
  import opened Quaternion
  import opened Smoothing
  import opened Pose
  import opened Session
  import opened Wrappers

  // ---------------------------------------------------------------------
  // The view lock

  /** What one frame of the view lock decides: the new `viewLocked` flag,
      the new `viewLockPose` slots, and the position and orientation the
      frame publishes. */
  datatype LockOutcome = LockOutcome(locked: bool, lockSlots: seq<real>, position: Vec3, rotation: Quat)

  /** The view-lock part of Update: a request that finds the lock free
      captures the target pose (y including the height offset) and takes
      the lock; while requested and locked the captured orientation is
      published; without a request the lock is released and the target
      orientation is published. The position always follows the target. */
  function ViewLockStep(requested: bool, locked: bool, lockSlots: seq<real>, wanted: seq<real>,
                        heightOffset: real): (r: LockOutcome)
    requires |lockSlots| == 7 && |wanted| == 7
    ensures |r.lockSlots| == 7
  {
    var captured := requested && !locked;
    var lock := if captured then Slots(PublishedPosition(wanted, heightOffset), Orientation(wanted))
                else lockSlots;
    var held := captured || locked;
    if requested && held then
      LockOutcome(held, lock, PublishedPosition(wanted, heightOffset), Orientation(lock))
    else
      LockOutcome(false, lock, PublishedPosition(wanted, heightOffset), Orientation(wanted))
  }

  /** The lock flag after a frame is exactly the request, and the published
      position is the target position raised by the height offset in every
      case. */
  lemma ViewLockFlagFollowsRequest(requested: bool, locked: bool, lockSlots: seq<real>, wanted: seq<real>,
                                   heightOffset: real)
    requires |lockSlots| == 7 && |wanted| == 7
    ensures var r := ViewLockStep(requested, locked, lockSlots, wanted, heightOffset);
      r.locked == requested && r.position == PublishedPosition(wanted, heightOffset)
  {
  }

  /** A request that finds the lock free captures the target pose and
      publishes its orientation; a request that finds it held keeps the
      captured pose and publishes the captured orientation. */
  lemma ViewLockCaptureAndHold(locked: bool, lockSlots: seq<real>, wanted: seq<real>, heightOffset: real)
    requires |lockSlots| == 7 && |wanted| == 7
    ensures var r := ViewLockStep(true, locked, lockSlots, wanted, heightOffset);
      (!locked ==> r.lockSlots == Slots(PublishedPosition(wanted, heightOffset), Orientation(wanted))
                   && r.rotation == Orientation(wanted))
      && (locked ==> r.lockSlots == lockSlots && r.rotation == Orientation(lockSlots))
  {
  }

  /** Without a request the lock pose is left as it was and the target
      orientation is published. */
  lemma ViewLockReleased(locked: bool, lockSlots: seq<real>, wanted: seq<real>, heightOffset: real)
    requires |lockSlots| == 7 && |wanted| == 7
    ensures var r := ViewLockStep(false, locked, lockSlots, wanted, heightOffset);
      !r.locked && r.lockSlots == lockSlots && r.rotation == Orientation(wanted)
  {
  }

  /** One frame of the headset: its target pose and the height offset. */
  datatype Frame = Frame(wanted: seq<real>, heightOffset: real)

  predicate WellFormedFrames(frames: seq<Frame>) {
    forall i :: 0 <= i < |frames| ==> |frames[i].wanted| == 7
  }

  /** The rotations published over frames during which the lock stays
      requested, from a given lock state. Every frame publishes the
      orientation captured when the lock was taken (or the one already
      held), however the target moves. */
  function LockedRotations(locked: bool, lockSlots: seq<real>, frames: seq<Frame>): (r: seq<Quat>)
    requires |lockSlots| == 7 && WellFormedFrames(frames)
    ensures |r| == |frames|
    ensures forall i :: 0 <= i < |r| ==>
      r[i] == (if locked then Orientation(lockSlots) else Orientation(frames[0].wanted))
    decreases |frames|
  {
    if |frames| == 0 then []
    else
      var out := ViewLockStep(true, locked, lockSlots, frames[0].wanted, frames[0].heightOffset);
      var rest := LockedRotations(out.locked, out.lockSlots, frames[1..]);
      assert out.locked && Orientation(out.lockSlots) == out.rotation;
      [out.rotation] + rest
  }

  // ---------------------------------------------------------------------
  // The mount rotation

  /** The driver-from-head rotation the headset publishes every frame:
      HmdQuaternion_Init_Angle(-45, 0, 1, 0) composed with
      HmdQuaternion_Init_Angle(30, 1, 0, 0). The cosines and sines of the
      half angles (-22.5 and 15 degrees) are parameters. */
  function MountRotation(yawCos: real, yawSin: real, pitchCos: real, pitchSin: real): Quat {
    Product(AxisAngle(yawCos, yawSin, 0.0, 1.0, 0.0), AxisAngle(pitchCos, pitchSin, 1.0, 0.0, 0.0))
  }

  lemma MountComponents(yawCos: real, yawSin: real, pitchCos: real, pitchSin: real)
    ensures MountRotation(yawCos, yawSin, pitchCos, pitchSin)
            == Quat(yawCos * pitchCos, -(yawCos * pitchSin), -(yawSin * pitchCos), -(yawSin * pitchSin))
  {
    assert AxisAngle(yawCos, yawSin, 0.0, 1.0, 0.0) == Quat(yawCos, 0.0, -yawSin, 0.0);
    assert AxisAngle(pitchCos, pitchSin, 1.0, 0.0, 0.0) == Quat(pitchCos, -pitchSin, 0.0, 0.0);
    ProductOfAxes(yawCos, -yawSin, pitchCos, -pitchSin);
  }

  /** A rotation about y composed with one about x (both as quaternions
      with two zero components). */
  lemma ProductOfAxes(a: real, b: real, c: real, d: real)
    ensures Product(Quat(a, 0.0, b, 0.0), Quat(c, d, 0.0, 0.0)) == Quat(a * c, a * d, b * c, -(b * d))
  {
  }

  /** With true cosine/sine pairs the mount rotation is a unit quaternion. */
  lemma MountUnit(yawCos: real, yawSin: real, pitchCos: real, pitchSin: real)
    requires yawCos * yawCos + yawSin * yawSin == 1.0 && pitchCos * pitchCos + pitchSin * pitchSin == 1.0
    ensures NormSq(MountRotation(yawCos, yawSin, pitchCos, pitchSin)) == 1.0
  {
    MountComponents(yawCos, yawSin, pitchCos, pitchSin);
    NormSqOf(MountRotation(yawCos, yawSin, pitchCos, pitchSin), yawCos * pitchCos, -(yawCos * pitchSin),
             -(yawSin * pitchCos), -(yawSin * pitchSin));
    TwoSquares(yawCos, yawSin, pitchCos, pitchSin);
  }

  lemma TwoSquares(c1: real, s1: real, c2: real, s2: real)
    ensures (c1 * c2) * (c1 * c2) + -(c1 * s2) * -(c1 * s2) + -(s1 * c2) * -(s1 * c2) + -(s1 * s2) * -(s1 * s2)
      == (c1 * c1 + s1 * s1) * (c2 * c2 + s2 * s2)
  {
  }

  /** The pose the headset publishes in a frame. */
  function HeadsetPose(last: DriverPose, out: LockOutcome, timeOffset: real, dt: real, mount: Quat): DriverPose {
    Publish(last, out.position, out.rotation, timeOffset, dt, mount)
  }

  // ---------------------------------------------------------------------
  // The desktop window and the display geometry

  /** The window the headset's display occupies on the desktop. */
  datatype Window = Window(x: int, y: int, width: nat, height: nat)

  /** The four window settings as Activate reads them; None when a setting
      is missing or not an integer. */
  datatype WindowSettings = WindowSettings(x: Option<int>, y: Option<int>, width: Option<int>, height: Option<int>)

  /** A setting replaces a field only when present and positive. */
  function Setting(current: int, s: Option<int>): (r: int)
    ensures s.Some? && s.value > 0 ==> r == s.value
    ensures !(s.Some? && s.value > 0) ==> r == current
  {
    if s.Some? && s.value > 0 then s.value else current
  }

  /** The settings step of Activate as written: the window_y setting is
      stored into the x field, so y never changes, and a positive window_y
      wins over window_x. */
  function ApplyWindowSettingsAsWritten(w: Window, s: WindowSettings): (r: Window)
    ensures r.y == w.y
    ensures s.y.Some? && s.y.value > 0 ==> r.x == s.y.value
  {
    var x := Setting(w.x, s.x);
    var x' := Setting(x, s.y);
    Window(x', w.y, Setting(w.width, s.width), Setting(w.height, s.height))
  }

  /** Given only a window_y setting, the code as written moves the window
      horizontally and leaves its vertical position alone. */
  lemma WindowYSettingMisplaced()
    ensures ApplyWindowSettingsAsWritten(Window(0, 0, 1920, 1080),
                                         WindowSettings(None, Some(100), None, None))
            == Window(100, 0, 1920, 1080)
  {
  }

  /** The settings step with each setting in its own field. */
  function ApplyWindowSettings(w: Window, s: WindowSettings): Window {
    Window(Setting(w.x, s.x), Setting(w.y, s.y), Setting(w.width, s.width), Setting(w.height, s.height))
  }

  /** Each present, positive setting lands in its own field, and every other
      field keeps its value; applying the same settings again changes
      nothing. */
  lemma WindowSettingsApplied(w: Window, s: WindowSettings)
    ensures var r := ApplyWindowSettings(w, s);
      (s.y.Some? && s.y.value > 0 ==> r.y == s.y.value)
      && (!(s.y.Some? && s.y.value > 0) ==> r.y == w.y)
      && (s.x.Some? && s.x.value > 0 ==> r.x == s.x.value)
      && (!(s.x.Some? && s.x.value > 0) ==> r.x == w.x)
      && (s.width.Some? && s.width.value > 0 ==> r.width == s.width.value)
      && (!(s.width.Some? && s.width.value > 0) ==> r.width == w.width)
      && (s.height.Some? && s.height.value > 0 ==> r.height == s.height.value)
      && (!(s.height.Some? && s.height.value > 0) ==> r.height == w.height)
      && ApplyWindowSettings(r, s) == r
  {
  }

  /** The two halves of the window, one per eye. */
  datatype Eye = LeftEye | RightEye

  datatype Viewport = Viewport(x: nat, y: nat, width: nat, height: nat)

  /** GetEyeOutputViewport: the left eye on the left half of the window, the
      right eye on the right half (unsigned halving). */
  function EyeOutputViewport(eye: Eye, windowWidth: nat, windowHeight: nat): Viewport {
    Viewport(if eye == LeftEye then 0 else windowWidth / 2, 0, windowWidth / 2, windowHeight)
  }

  /** The eye viewports tile the window: both start at the top with the
      window's height, the left one at the left edge, the right one where
      the left ends, and together they span the window (an odd width loses
      its last column). */
  lemma EyeViewportsTile(windowWidth: nat, windowHeight: nat)
    ensures var l, r := EyeOutputViewport(LeftEye, windowWidth, windowHeight),
                        EyeOutputViewport(RightEye, windowWidth, windowHeight);
      l.x == 0 && r.x == l.x + l.width && l.width == r.width
      && r.x + r.width == windowWidth - windowWidth % 2
      && l.y == 0 && r.y == 0 && l.height == windowHeight && r.height == windowHeight
  {
  }

  datatype Projection = Projection(left: real, right: real, top: real, bottom: real)

  /** The tangent of the half field of view the projection uses. */
  const HalfExtent: real := 1.706161137

  /** GetProjectionRaw. */
  function ProjectionRaw(eye: Eye): Projection {
    if eye == LeftEye then Projection(-HalfExtent, 0.0, -1.0, 1.0)
    else Projection(0.0, HalfExtent, -1.0, 1.0)
  }

  /** The two eye frusta mirror each other about the centre line and meet
      there, and share the vertical extent from -1 to 1. */
  lemma ProjectionMirrored()
    ensures ProjectionRaw(LeftEye).left == -ProjectionRaw(RightEye).right
    ensures ProjectionRaw(LeftEye).right == ProjectionRaw(RightEye).left == 0.0
    ensures ProjectionRaw(LeftEye).left < ProjectionRaw(LeftEye).right
    ensures ProjectionRaw(RightEye).left < ProjectionRaw(RightEye).right
    ensures forall e: Eye :: ProjectionRaw(e).top == -1.0 && ProjectionRaw(e).bottom == 1.0
  {
  }

  datatype UV = UV(u: real, v: real)
  datatype DistortionCoordinates = DistortionCoordinates(red: UV, green: UV, blue: UV)

  /** ComputeDistortion: no lens correction; every colour channel samples
      the point it is given, for either eye. */
  function ComputeDistortion(eye: Eye, u: real, v: real): (r: DistortionCoordinates)
    ensures r.red == UV(u, v) && r.green == UV(u, v) && r.blue == UV(u, v)
  {
    DistortionCoordinates(UV(u, v), UV(u, v), UV(u, v))
  }

  // ---------------------------------------------------------------------
  // The device

  class HMDDevice {
    const session: DriverSession
    const sqrt: real -> real
    /** The half-angle cosines and sines of the mount rotation. */
    const yawCos: real
    const yawSin: real
    const pitchCos: real
    const pitchSin: real
    /** [x, y, z, qw, qx, qy, qz] the smoothed target pose. */
    const wantedPose: array<real>
    /** The pose captured when the view lock was taken. */
    const viewLockPose: array<real>
    var deviceIndex: int
    var poseTimestampMs: int
    var wantedTimeOffset: real
    var lastPose: DriverPose
    var window: Window

    ghost predicate Valid()
      reads this
    {
      wantedPose.Length == 7 && viewLockPose.Length == 7 && wantedPose != viewLockPose && IsSquareRoot(sqrt)
    }

    ghost predicate UnitOrientation()
      requires Valid()
      reads this, wantedPose
    {
      NormSq(Orientation(wantedPose[..])) == 1.0
    }

    /** The header's initial values of the lock pose and of the window are
        parameters, as are the host's default pose and the initial pose
        timestamp. */
    constructor(session: DriverSession, sqrt: real -> real, yawCos: real, yawSin: real,
                pitchCos: real, pitchSin: real, defaultPose: DriverPose, initialTimestampMs: int,
                initialLockPose: seq<real>, initialWindow: Window)
      requires IsSquareRoot(sqrt) && |initialLockPose| == 7
      ensures Valid() && fresh(wantedPose) && fresh(viewLockPose) && UnitOrientation()
      ensures this.session == session && this.sqrt == sqrt
      ensures this.yawCos == yawCos && this.yawSin == yawSin
      ensures this.pitchCos == pitchCos && this.pitchSin == pitchSin
      ensures wantedPose[..] == InitialSlots && viewLockPose[..] == initialLockPose
      ensures wantedTimeOffset == 0.0 && deviceIndex == InvalidDeviceIndex
      ensures lastPose == defaultPose && poseTimestampMs == initialTimestampMs && window == initialWindow
    {
      this.session := session;
      this.sqrt := sqrt;
      this.yawCos, this.yawSin, this.pitchCos, this.pitchSin := yawCos, yawSin, pitchCos, pitchSin;
      wantedPose := new real[7] [0.0, 0.0, 0.0, 1.0, 0.0, 0.0, 0.0];
      var lock := new real[7] (i requires 0 <= i < 7 => initialLockPose[i]);
      assert lock[..] == initialLockPose;
      viewLockPose := lock;
      deviceIndex := InvalidDeviceIndex;
      poseTimestampMs := initialTimestampMs;
      wantedTimeOffset := 0.0;
      lastPose := defaultPose;
      window := initialWindow;
    }

    /** Smooths a position sample into slots 0..2, as the controller does. */
    method UpdatePos(a: real, b: real, c: real, time: real, smoothing: real)
      requires Valid()
      modifies this`wantedTimeOffset, wantedPose
      ensures Valid()
      ensures wantedPose[..] == Slots(SmoothPosition(Position(old(wantedPose[..])), Vec3(a, b, c), smoothing),
                                      Orientation(old(wantedPose[..])))
      ensures UnitOrientation() == old(UnitOrientation())
      ensures wantedTimeOffset == time
    {
      wantedPose[0] := (1.0 - smoothing) * wantedPose[0] + smoothing * a;
      wantedPose[1] := (1.0 - smoothing) * wantedPose[1] + smoothing * b;
      wantedPose[2] := (1.0 - smoothing) * wantedPose[2] + smoothing * c;
      wantedTimeOffset := time;
      assert Position(wantedPose[..]) == SmoothPosition(Position(old(wantedPose[..])), Vec3(a, b, c), smoothing);
      assert Orientation(wantedPose[..]) == Orientation(old(wantedPose[..]));
      SlotsOfParts(wantedPose[..]);
    }

    /** Blends an orientation sample into slots 3..6 and renormalises, as
        the controller does. */
    method UpdateRot(qw: real, qx: real, qy: real, qz: real, time: real, smoothing: real)
      requires Valid()
      requires NormSq(Blend(Orientation(wantedPose[..]), Quat(qw, qx, qy, qz), smoothing)) != 0.0
      modifies this`wantedTimeOffset, wantedPose
      ensures Valid()
      ensures wantedPose[..] == Slots(Position(old(wantedPose[..])),
                                      Renormalized(Blend(Orientation(old(wantedPose[..])),
                                                         Quat(qw, qx, qy, qz), smoothing), sqrt))
      ensures UnitOrientation()
      ensures wantedTimeOffset == time
    {
      var blended := Blend(Quat(wantedPose[3], wantedPose[4], wantedPose[5], wantedPose[6]),
                           Quat(qw, qx, qy, qz), smoothing);
      assert Quat(wantedPose[3], wantedPose[4], wantedPose[5], wantedPose[6]) == Orientation(wantedPose[..]);
      var mag := sqrt(NormSq(blended));
      ghost var unit := Renormalized(blended, sqrt);
      assert mag != 0.0 && unit == Div(blended, mag);
      wantedPose[3], wantedPose[4], wantedPose[5], wantedPose[6] :=
        blended.w / mag, blended.x / mag, blended.y / mag, blended.z / mag;
      wantedTimeOffset := time;
      assert Position(wantedPose[..]) == Position(old(wantedPose[..]));
      SlotsOfParts(wantedPose[..]);
    }

    /** Publishes the frame's pose through the view lock. `nowMs` is the
        wall clock in milliseconds. A device the host has not activated
        does nothing. */
    method Update(nowMs: int)
      requires Valid()
      modifies this`poseTimestampMs, this`lastPose, viewLockPose, session`viewLocked
      ensures Valid()
      ensures old(deviceIndex) == InvalidDeviceIndex ==>
        poseTimestampMs == old(poseTimestampMs) && lastPose == old(lastPose)
        && viewLockPose[..] == old(viewLockPose[..]) && session.viewLocked == old(session.viewLocked)
      ensures old(deviceIndex) != InvalidDeviceIndex ==>
        var out := ViewLockStep(session.viewLockRequested, old(session.viewLocked), old(viewLockPose[..]),
                                wantedPose[..], session.heightOffset);
        poseTimestampMs == nowMs
        && session.viewLocked == out.locked && viewLockPose[..] == out.lockSlots
        && lastPose == HeadsetPose(old(lastPose), out, wantedTimeOffset,
                                   DeltaSeconds(old(poseTimestampMs), nowMs),
                                   MountRotation(yawCos, yawSin, pitchCos, pitchSin))
    {
      if deviceIndex == InvalidDeviceIndex {
        return;
      }
      ghost var out := ViewLockStep(session.viewLockRequested, session.viewLocked, viewLockPose[..],
                                    wantedPose[..], session.heightOffset);
      var pose := lastPose;
      var dt := (nowMs - poseTimestampMs) as real / 1000.0;
      poseTimestampMs := nowMs;
      var previousPosition := pose.position;
      CaptureViewLock();
      var position := Vec3(wantedPose[0], wantedPose[1] + session.heightOffset, wantedPose[2]);
      var rotation;
      if session.viewLockRequested && session.viewLocked {
        rotation := Quat(viewLockPose[3], viewLockPose[4], viewLockPose[5], viewLockPose[6]);
      } else {
        rotation := Quat(wantedPose[3], wantedPose[4], wantedPose[5], wantedPose[6]);
        session.viewLocked := false;
      }
      assert position == out.position && rotation == out.rotation && session.viewLocked == out.locked;
      var velocity := pose.velocity;
      if dt > 0.0 {
        velocity := Vec3(0.8 * velocity.x + 0.2 * (position.x - previousPosition.x) / dt,
                         0.8 * velocity.y + 0.2 * (position.y - previousPosition.y) / dt,
                         0.8 * velocity.z + 0.2 * (position.z - previousPosition.z) / dt);
      }
      pose := pose.(position := position, rotation := rotation, velocity := velocity,
                    poseTimeOffset := wantedTimeOffset,
                    driverFromHeadRotation := Product(AxisAngle(yawCos, yawSin, 0.0, 1.0, 0.0),
                                                      AxisAngle(pitchCos, pitchSin, 1.0, 0.0, 0.0)));
      lastPose := pose;
    }

    /** The capture step of the view lock: a request that finds the lock
        free copies the target pose, raised by the height offset, into the
        lock pose and takes the lock. */
    method CaptureViewLock()
      requires Valid()
      modifies viewLockPose, session`viewLocked
      ensures Valid()
      ensures viewLockPose[..] == ViewLockStep(session.viewLockRequested, old(session.viewLocked),
                                               old(viewLockPose[..]), wantedPose[..], session.heightOffset).lockSlots
      ensures session.viewLocked == (old(session.viewLocked) || session.viewLockRequested)
    {
      if session.viewLockRequested && !session.viewLocked {
        viewLockPose[0] := wantedPose[0];
        viewLockPose[1] := wantedPose[1] + session.heightOffset;
        viewLockPose[2] := wantedPose[2];
        viewLockPose[3] := wantedPose[3];
        viewLockPose[4] := wantedPose[4];
        viewLockPose[5] := wantedPose[5];
        viewLockPose[6] := wantedPose[6];
        session.viewLocked := true;
        assert viewLockPose[..] == Slots(PublishedPosition(wantedPose[..], session.heightOffset),
                                         Orientation(wantedPose[..]));
      }
    }

    /** Activate's own state: the device index and the window settings
        (each with its own field; see ApplyWindowSettingsAsWritten for the
        code as written). */
    method Activate(objectId: int, settings: WindowSettings)
      modifies this`deviceIndex, this`window
      ensures deviceIndex == objectId
      ensures window == ApplyWindowSettings(old(window), settings)
    {
      deviceIndex := objectId;
      if settings.x.Some? && settings.x.value > 0 {
        window := window.(x := settings.x.value);
      }
      if settings.y.Some? && settings.y.value > 0 {
        window := window.(y := settings.y.value);
      }
      if settings.width.Some? && settings.width.value > 0 {
        window := window.(width := settings.width.value);
      }
      if settings.height.Some? && settings.height.value > 0 {
        window := window.(height := settings.height.value);
      }
    }

    method Deactivate()
      modifies this`deviceIndex
      ensures deviceIndex == InvalidDeviceIndex
    {
      deviceIndex := InvalidDeviceIndex;
    }

    method GetPose() returns (pose: DriverPose)
      ensures pose == lastPose
    {
      pose := lastPose;
    }

    method GetEyeOutputViewport(eye: Eye) returns (viewport: Viewport)
      ensures viewport == EyeOutputViewport(eye, window.width, window.height)
    {
      var half := window.width / 2;
      viewport := Viewport(if eye == LeftEye then 0 else half, 0, half, window.height);
    }

    /** The pose predictor's entry points are stubs: nothing is predicted
        and nothing is stored. */
    method GetNextPose(requestTime: real, prediction: array<real>) returns (r: int)
      ensures r == -1
    {
      r := -1;
    }

    method SaveCurrentPose(a: real, b: real, c: real, qw: real, qx: real, qy: real, qz: real, time: real)
      ensures unchanged(this) && unchanged(wantedPose) && unchanged(viewLockPose)
    {
    }

    method Reinit(saved: int, time: real, smoothing: real)
      ensures unchanged(this) && unchanged(wantedPose) && unchanged(viewLockPose)
    {
    }
  }
}
