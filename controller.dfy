/** ControllerDevice: smoothing of incoming samples into the target pose,
    the per-frame publishing of that pose, and the left controller's
    height-offset buttons. */
module Controller {
  import opened Quaternion
  import opened Smoothing
  import opened Pose
  import opened Session
  import opened Wrappers
  import opened InputEvents

  datatype Handedness = Left | Right | Any

  /** The joystick button whose press stores the recalibration correction,
      if this hand has one. */
  function RecalibrationButton(hand: Handedness): Option<int> {
    match hand
    case Left => Some(BTN_TRIGGER_HAPPY2)
    case Right => Some(BTN_TRIGGER_HAPPY3)
    case Any => None
  }

  /** The pose the controller publishes in a frame: the target position
      raised by the height offset, the target orientation, the filtered
      velocity and, when this hand's recalibration button is down, the
      correction taken from the new orientation. */
  function ControllerPose(last: DriverPose, slots: seq<real>, heightOffset: real, timeOffset: real,
                          dt: real, recalibrate: bool): DriverPose
    requires |slots| == 7
  {
    var q := Orientation(slots);
    Publish(last, PublishedPosition(slots, heightOffset), q, timeOffset, dt,
            if recalibrate then Recalibrated(q) else last.driverFromHeadRotation)
  }

  /** What a published controller pose holds. */
  lemma ControllerPoseFields(last: DriverPose, slots: seq<real>, heightOffset: real, timeOffset: real,
                             dt: real, recalibrate: bool)
    requires |slots| == 7
    ensures var p := ControllerPose(last, slots, heightOffset, timeOffset, dt, recalibrate);
      && p.position == Vec3(slots[0], slots[1] + heightOffset, slots[2])
      && p.rotation == Orientation(slots)
      && (dt > 0.0 ==>
            p.velocity == Vec3(0.8 * last.velocity.x + 0.2 * (slots[0] - last.position.x) / dt,
                               0.8 * last.velocity.y + 0.2 * (slots[1] + heightOffset - last.position.y) / dt,
                               0.8 * last.velocity.z + 0.2 * (slots[2] - last.position.z) / dt))
      && (dt <= 0.0 ==> p.velocity == last.velocity)
      && p.poseTimeOffset == timeOffset
      && (recalibrate ==> Product(p.driverFromHeadRotation, p.rotation)
                           == Quat(-NormSq(Orientation(slots)), 0.0, 0.0, 0.0))
      && (!recalibrate ==> p.driverFromHeadRotation == last.driverFromHeadRotation)
  {
  }

  class ControllerDevice {
    const handedness: Handedness
    const session: DriverSession
    /** The C library's square root, as used to renormalise. */
    const sqrt: real -> real
    /** [x, y, z, qw, qx, qy, qz] the smoothed target pose. */
    const wantedPose: array<real>
    var deviceIndex: int
    var poseTimestampMs: int
    var wantedTimeOffset: real
    var lastPose: DriverPose

    ghost predicate Valid()
      reads this, wantedPose
    {
      wantedPose.Length == 7 && IsSquareRoot(sqrt)
    }

    /** The orientation slots hold a unit quaternion: true from construction
        on, kept by UpdatePos and re-established by every UpdateRot. */
    ghost predicate UnitOrientation()
      requires Valid()
      reads this, wantedPose
    {
      NormSq(Orientation(wantedPose[..])) == 1.0
    }

    /** The host's default pose and the initial value of the pose timestamp
        (which the driver leaves uninitialised) are parameters. */
    constructor(handedness: Handedness, session: DriverSession, sqrt: real -> real,
                defaultPose: DriverPose, initialTimestampMs: int)
      requires IsSquareRoot(sqrt)
      ensures Valid() && fresh(wantedPose) && UnitOrientation()
      ensures this.handedness == handedness && this.session == session && this.sqrt == sqrt
      ensures wantedPose[..] == InitialSlots && wantedTimeOffset == 0.0
      ensures deviceIndex == InvalidDeviceIndex
      ensures lastPose == defaultPose && poseTimestampMs == initialTimestampMs
    {
      this.handedness := handedness;
      this.session := session;
      this.sqrt := sqrt;
      wantedPose := new real[7] [0.0, 0.0, 0.0, 1.0, 0.0, 0.0, 0.0];
      deviceIndex := InvalidDeviceIndex;
      poseTimestampMs := initialTimestampMs;
      wantedTimeOffset := 0.0;
      lastPose := defaultPose;
    }

    /** Smooths a position sample into slots 0..2; the orientation slots are
        untouched. */
    method UpdatePos(a: real, b: real, c: real, time: real, smoothing: real)
      requires Valid()
      modifies this`wantedTimeOffset, wantedPose
      ensures Valid()
      ensures wantedPose[..] == Slots(SmoothPosition(Position(old(wantedPose[..])), Vec3(a, b, c), smoothing),
                                      Orientation(old(wantedPose[..])))
      ensures UnitOrientation() == old(UnitOrientation())
      ensures wantedTimeOffset == time
    {
      wantedPose[0] := (1.0 - smoothing) * wantedPose[0] + smoothing * a;
      wantedPose[1] := (1.0 - smoothing) * wantedPose[1] + smoothing * b;
      wantedPose[2] := (1.0 - smoothing) * wantedPose[2] + smoothing * c;
      wantedTimeOffset := time;
      assert Position(wantedPose[..]) == SmoothPosition(Position(old(wantedPose[..])), Vec3(a, b, c), smoothing);
      assert Orientation(wantedPose[..]) == Orientation(old(wantedPose[..]));
      SlotsOfParts(wantedPose[..]);
    }

    /** Blends an orientation sample into slots 3..6 in the hemisphere of
        the sample and renormalises; the position slots are untouched. The
        blend must not vanish (see Smoothing.BlendNonZero for when it
        cannot). */
    method UpdateRot(qw: real, qx: real, qy: real, qz: real, time: real, smoothing: real)
      requires Valid()
      requires NormSq(Blend(Orientation(wantedPose[..]), Quat(qw, qx, qy, qz), smoothing)) != 0.0
      modifies this`wantedTimeOffset, wantedPose
      ensures Valid()
      ensures wantedPose[..] == Slots(Position(old(wantedPose[..])),
                                      Renormalized(Blend(Orientation(old(wantedPose[..])),
                                                         Quat(qw, qx, qy, qz), smoothing), sqrt))
      ensures UnitOrientation()
      ensures wantedTimeOffset == time
    {
      var blended := Blend(Quat(wantedPose[3], wantedPose[4], wantedPose[5], wantedPose[6]),
                           Quat(qw, qx, qy, qz), smoothing);
      assert Quat(wantedPose[3], wantedPose[4], wantedPose[5], wantedPose[6]) == Orientation(wantedPose[..]);
      var mag := sqrt(NormSq(blended));
      ghost var unit := Renormalized(blended, sqrt);
      assert mag != 0.0 && unit == Div(blended, mag);
      wantedPose[3], wantedPose[4], wantedPose[5], wantedPose[6] :=
        blended.w / mag, blended.x / mag, blended.y / mag, blended.z / mag;
      wantedTimeOffset := time;
      assert Position(wantedPose[..]) == Position(old(wantedPose[..]));
      SlotsOfParts(wantedPose[..]);
    }

    /** Publishes the frame's pose. `nowMs` is the wall clock in
        milliseconds; `joyButton` gives what getJoyButton reports for each
        button this frame. A device the host has not activated does
        nothing. */
    method Update(nowMs: int, joyButton: int -> bool)
      requires Valid()
      modifies this`poseTimestampMs, this`lastPose
      ensures Valid()
      ensures old(deviceIndex) == InvalidDeviceIndex ==>
        poseTimestampMs == old(poseTimestampMs) && lastPose == old(lastPose)
      ensures old(deviceIndex) != InvalidDeviceIndex ==>
        poseTimestampMs == nowMs &&
        lastPose == ControllerPose(old(lastPose), wantedPose[..], session.heightOffset, wantedTimeOffset,
                                   DeltaSeconds(old(poseTimestampMs), nowMs),
                                   RecalibrationButton(handedness).Some?
                                   && joyButton(RecalibrationButton(handedness).value))
    {
      if deviceIndex == InvalidDeviceIndex {
        return;
      }
      var pose := lastPose;
      var dt := (nowMs - poseTimestampMs) as real / 1000.0;
      poseTimestampMs := nowMs;
      var previousPosition := pose.position;
      var position := Vec3(wantedPose[0], wantedPose[1] + session.heightOffset, wantedPose[2]);
      var rotation := Quat(wantedPose[3], wantedPose[4], wantedPose[5], wantedPose[6]);
      var velocity := pose.velocity;
      if dt > 0.0 {
        velocity := Vec3(0.8 * velocity.x + 0.2 * (position.x - previousPosition.x) / dt,
                         0.8 * velocity.y + 0.2 * (position.y - previousPosition.y) / dt,
                         0.8 * velocity.z + 0.2 * (position.z - previousPosition.z) / dt);
      }
      pose := pose.(position := position, rotation := rotation, velocity := velocity,
                    poseTimeOffset := wantedTimeOffset);
      if handedness == Left {
        if joyButton(BTN_TRIGGER_HAPPY2) {
          pose := pose.(driverFromHeadRotation := Quat(-rotation.w, rotation.x, rotation.y, rotation.z));
        }
      } else if handedness == Right {
        if joyButton(BTN_TRIGGER_HAPPY3) {
          pose := pose.(driverFromHeadRotation := Quat(-rotation.w, rotation.x, rotation.y, rotation.z));
        }
      }
      lastPose := pose;
    }

    /** The height-offset buttons of RunFrame: only the left controller
        reads them. */
    method RunFrame(joyButton: int -> bool)
      modifies session`heightOffset
      ensures handedness == Left ==>
        session.heightOffset == AdjustedHeight(old(session.heightOffset), joyButton(BTN_DPAD_UP),
                                               joyButton(BTN_DPAD_DOWN), joyButton(BTN_DPAD_RIGHT))
      ensures handedness != Left ==> session.heightOffset == old(session.heightOffset)
    {
      if handedness == Left {
        if joyButton(BTN_DPAD_UP) {
          session.heightOffset := session.heightOffset + 0.02;
        }
        if joyButton(BTN_DPAD_DOWN) {
          session.heightOffset := session.heightOffset - 0.02;
        }
        if joyButton(BTN_DPAD_RIGHT) {
          session.heightOffset := 0.0;
        }
      }
    }

    method Activate(objectId: int)
      modifies this`deviceIndex
      ensures deviceIndex == objectId
    {
      deviceIndex := objectId;
    }

    method Deactivate()
      modifies this`deviceIndex
      ensures deviceIndex == InvalidDeviceIndex
    {
      deviceIndex := InvalidDeviceIndex;
    }

    method GetPose() returns (pose: DriverPose)
      ensures pose == lastPose
    {
      pose := lastPose;
    }
  }
}
