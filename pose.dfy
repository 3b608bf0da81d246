/** The part of the OpenVR pose record that the devices fill in each frame,
    the seven-slot target pose layout [x, y, z, qw, qx, qy, qz] that
    UpdatePos and UpdateRot write, and the per-frame publishing arithmetic
    shared by the controller and the headset. */
module Pose {
  import opened Quaternion

  /** vr::k_unTrackedDeviceIndexInvalid: the device index of a device the
      host has not (or no longer) activated. */
  const InvalidDeviceIndex: int := 0xFFFF_FFFF

  datatype DriverPose = DriverPose(
    position: Vec3,
    rotation: Quat,
    velocity: Vec3,
    poseTimeOffset: real,
    driverFromHeadRotation: Quat)

  function Position(slots: seq<real>): Vec3
    requires |slots| == 7
  {
    Vec3(slots[0], slots[1], slots[2])
  }

  function Orientation(slots: seq<real>): Quat
    requires |slots| == 7
  {
    Quat(slots[3], slots[4], slots[5], slots[6])
  }

  /** The slot layout of a position and an orientation; reading the slots
      back gives the two parts. */
  function Slots(p: Vec3, q: Quat): (r: seq<real>)
    ensures |r| == 7 && Position(r) == p && Orientation(r) == q
  {
    [p.x, p.y, p.z, q.w, q.x, q.y, q.z]
  }

  lemma SlotsOfParts(slots: seq<real>)
    requires |slots| == 7
    ensures Slots(Position(slots), Orientation(slots)) == slots
  {
  }

  /** The target pose a device starts with (ControllerDevice.hpp): the origin
      and the identity orientation. */
  const InitialSlots: seq<real> := [0.0, 0.0, 0.0, 1.0, 0.0, 0.0, 0.0]

  lemma InitialSlotsIdentity()
    ensures |InitialSlots| == 7
    ensures Position(InitialSlots) == Vec3(0.0, 0.0, 0.0)
    ensures Orientation(InitialSlots) == Identity && NormSq(Identity) == 1.0
  {
  }

  /** Seconds between two millisecond timestamps. It is positive exactly
      when the clock has advanced. */
  function DeltaSeconds(prevMs: int, nowMs: int): (r: real)
    ensures r > 0.0 <==> nowMs > prevMs
    ensures r == 0.0 <==> nowMs == prevMs
  {
    (nowMs - prevMs) as real / 1000.0
  }

  /** The published position: the target position with the shared height
      offset added to y. */
  function PublishedPosition(slots: seq<real>, heightOffset: real): Vec3
    requires |slots| == 7
  {
    Vec3(slots[0], slots[1] + heightOffset, slots[2])
  }

  /** The height offset moves the published position along y only, by
      exactly its own amount. */
  lemma HeightOffsetShiftsY(slots: seq<real>, h1: real, h2: real)
    requires |slots| == 7
    ensures PublishedPosition(slots, h2).x == PublishedPosition(slots, h1).x == Position(slots).x
    ensures PublishedPosition(slots, h2).z == PublishedPosition(slots, h1).z == Position(slots).z
    ensures PublishedPosition(slots, h2).y - PublishedPosition(slots, h1).y == h2 - h1
    ensures PublishedPosition(slots, 0.0) == Position(slots)
  {
  }

  /** One axis of the velocity filter: 80% of the previous velocity plus 20%
      of the finite-difference velocity. */
  function FilterAxis(v: real, pos: real, prev: real, dt: real): real
    requires dt > 0.0
  {
    0.8 * v + 0.2 * (pos - prev) / dt
  }

  /** The velocity filter of Update: it runs only when the clock advanced
      (dt > 0); otherwise the previous velocity is kept. */
  function FilteredVelocity(v: Vec3, pos: Vec3, prev: Vec3, dt: real): (r: Vec3)
    ensures dt <= 0.0 ==> r == v
  {
    if dt > 0.0 then
      Vec3(FilterAxis(v.x, pos.x, prev.x, dt), FilterAxis(v.y, pos.y, prev.y, dt),
           FilterAxis(v.z, pos.z, prev.z, dt))
    else
      v
  }

  /** Motion at a steady velocity is a fixed point of the filter. */
  lemma FilterSteadyMotion(v: real, prev: real, dt: real)
    requires dt > 0.0
    ensures FilterAxis(v, prev + v * dt, prev, dt) == v
  {
    assert (prev + v * dt) - prev == v * dt;
    assert 0.2 * (v * dt) / dt == 0.2 * v;
  }

  lemma FilteredVelocitySteady(v: Vec3, prev: Vec3, dt: real)
    requires dt > 0.0
    ensures FilteredVelocity(v, Vec3(prev.x + v.x * dt, prev.y + v.y * dt, prev.z + v.z * dt), prev, dt) == v
  {
    FilterSteadyMotion(v.x, prev.x, dt);
    FilterSteadyMotion(v.y, prev.y, dt);
    FilterSteadyMotion(v.z, prev.z, dt);
  }

  /** A device that did not move keeps 80% of its previous velocity. */
  lemma FilteredVelocityStill(v: Vec3, pos: Vec3, dt: real)
    requires dt > 0.0
    ensures FilteredVelocity(v, pos, pos, dt) == Vec3(0.8 * v.x, 0.8 * v.y, 0.8 * v.z)
  {
  }

  /** The filter never reports a speed (per axis) above a bound that both
      the previous velocity and the finite-difference velocity respect. */
  lemma FilterAxisBounded(v: real, pos: real, prev: real, dt: real, bound: real)
    requires dt > 0.0
    requires -bound <= v <= bound
    requires -bound * dt <= pos - prev <= bound * dt
    ensures -bound <= FilterAxis(v, pos, prev, dt) <= bound
  {
    QuotientBounded(pos - prev, dt, bound);
    assert 0.2 * (pos - prev) / dt == 0.2 * ((pos - prev) / dt);
  }

  lemma QuotientBounded(d: real, dt: real, bound: real)
    requires dt > 0.0 && -bound * dt <= d <= bound * dt
    ensures -bound <= d / dt <= bound
  {
  }

  /** The orientation correction a recalibration stores: the current
      orientation with its w component negated, which is minus its
      conjugate. Composed with the orientation it was taken from it gives
      (-|q|^2, 0, 0, 0), minus the identity for a unit quaternion, which is
      the identity rotation. */
  function Recalibrated(q: Quat): (r: Quat)
    ensures Product(r, q) == Quat(-NormSq(q), 0.0, 0.0, 0.0)
    ensures NormSq(r) == NormSq(q)
  {
    Quat(-q.w, q.x, q.y, q.z)
  }

  /** The pose published in one frame from the previous pose: the given
      position and rotation, the filtered velocity, the time offset of the
      last sample and the driver-from-head rotation. */
  function Publish(last: DriverPose, position: Vec3, rotation: Quat, timeOffset: real,
                   dt: real, driverFromHead: Quat): DriverPose
  {
    DriverPose(position, rotation, FilteredVelocity(last.velocity, position, last.position, dt),
               timeOffset, driverFromHead)
  }

  /** Two frames published in the same millisecond report the same
      velocity. */
  lemma PublishSameInstant(last: DriverPose, position: Vec3, rotation: Quat, timeOffset: real,
                           driverFromHead: Quat, ms: int)
    ensures Publish(last, position, rotation, timeOffset, DeltaSeconds(ms, ms), driverFromHead).velocity
            == last.velocity
  {
  }
}
