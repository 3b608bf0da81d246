# Simple OpenVR Bridge Driver: pose and input core in Dafny

This project models the core of an OpenVR driver. The driver publishes a
headset and two controllers whose poses come from an external tracker. It
also reads local Linux input devices (a keyboard, a joystick and a mouse)
through the evdev event interface.

What the model covers:

- **Sample smoothing** (`Smoothing`). `UpdatePos` moves each position slot
  a fraction of the way toward a new sample. `UpdateRot` blends the stored
  orientation toward a new sample. When the two quaternions are in opposite
  hemispheres, the stored one is subtracted instead of added. The blend is
  then renormalised with the C library's square root.
- **The target pose** (`Pose`). The seven slots `[x, y, z, qw, qx, qy, qz]`
  are a controller's or the headset's target pose. `Pose` also holds the
  published-pose function: the position raised by the height offset, the
  80/20 velocity filter, the time offset, and the driver-from-head rotation.
  It also holds the controllers' recalibration correction.
- **The shared globals** (`Session`). These are the height offset, the
  view-lock request and the view-lock state. `Session` also holds the
  height buttons' arithmetic.
- **The controllers** (`Controller.ControllerDevice`). This covers the
  samples, the per-frame `Update` and the height-offset part of `RunFrame`.
- **The headset** (`HMD`). This covers:
  - the samples and the per-frame `Update`;
  - the view lock, which freezes the published orientation while it is
    requested;
  - the fixed mount rotation;
  - the window settings;
  - the eye viewports, the projection and the identity distortion;
  - the pose-predictor stubs.
- **The evdev readers** (`InputEvents` for the specification functions,
  `InputDevices` for the classes that keep their arrays in place). For the
  keyboard and joystick this covers:
  - the latch of `a[]`: set on a press, and cleared on the next read once
    the key is released;
  - the held flags of `state[]`;
  - the joystick's deadzone filter on `b[]`;
  - the range guards of `getKey`, `getJoyButton` and `getJoyAxis`.

  The mouse reader adds relative motion into optional counters.

What is treated as a parameter:

- The events a read delivers are a parameter. They are the batch that the
  non-blocking descriptor yields before its first failed or short read.
- The wall clock is the `nowMs` argument of `Update`.
- The 1/60 s throttle of the `get*` functions is the `elapsedTicks`
  argument.
- The joystick buttons a controller sees in a frame are a function
  `joyButton`.
- Square roots are a function value `sqrt` that satisfies `IsSquareRoot`.
- Cosines and sines are the half-angle parameters of the mount rotation.
- HMDDevice.hpp is not part of this model. The headset's initial window and
  initial view-lock pose are constructor parameters.

## Model

| member | source | states |
|---|---|---|
| `Quaternion.AxisAngle` | driver_files/src/Driver/HMDDevice.cpp:29-36 | the components of HmdQuaternion_Init_Angle for a given half-angle cosine and sine; a unit axis with a true cosine/sine pair gives a unit quaternion |
| `Quaternion.Product` | driver_files/src/Driver/HMDDevice.cpp:39-47 | HmdQuaternion_Product, the Hamilton product component by component; its properties are stated by `ProductIdentity`, `HMD.MountComponents`/`HMD.MountUnit` and `Pose.Recalibrated` |
| `Quaternion.ProductIdentity` | driver_files/src/Driver/HMDDevice.cpp:38-47 | the identity quaternion is a two-sided unit of HmdQuaternion_Product |
| `Quaternion.NormSqPositive` | driver_files/src/Driver/ControllerDevice.cpp:197-206 | the squared magnitude that UpdateRot divides by is positive for every non-zero quaternion |
| `Quaternion.NormSqZero` | driver_files/src/Driver/ControllerDevice.cpp:197-206 | a zero squared magnitude happens only for the zero quaternion |
| `Quaternion.NegNormSq` | driver_files/src/Driver/ControllerDevice.cpp:181-196 | negating a quaternion (the hemisphere flip) keeps its magnitude |
| `Quaternion.DotLinear` | driver_files/src/Driver/ControllerDevice.cpp:181-196 | the dot product that UpdateRot tests is linear in a lerp of its second argument |
| `Smoothing.Lerp` | driver_files/src/Driver/ControllerDevice.cpp:170-172 | one position slot of UpdatePos: a factor of 0 keeps the stored value and a factor of 1 takes the sample |
| `Smoothing.LerpBetween` | driver_files/src/Driver/ControllerDevice.cpp:170-172 | with a factor in [0, 1], the smoothed slot lies between the stored value and the sample |
| `Smoothing.SmoothPosition` | driver_files/src/Driver/ControllerDevice.cpp:170-172 | UpdatePos's three slot updates, each a `Lerp` toward the sample's coordinate |
| `Smoothing.Aligned` | driver_files/src/Driver/ControllerDevice.cpp:181-183 | the stored orientation, flipped exactly when its dot product with the sample is negative, ends up in the sample's hemisphere |
| `Smoothing.Blend` | driver_files/src/Driver/ControllerDevice.cpp:181-196 | the lerp step of UpdateRot as written, with its subtracting branch on a negative dot product; its meaning is stated by `BlendIsLerpFromAligned` |
| `Smoothing.BlendIsLerpFromAligned` | driver_files/src/Driver/ControllerDevice.cpp:181-196 | UpdateRot's two branches, which add or subtract the stored components, are together the plain lerp from the aligned stored orientation toward the sample |
| `Smoothing.BlendSignInvariant` | driver_files/src/Driver/ControllerDevice.cpp:181-196 | storing q or -q (the same rotation) gives the same blend unless the sample is perpendicular to it |
| `Smoothing.BlendInSampleHemisphere` | driver_files/src/Driver/ControllerDevice.cpp:181-196 | with a factor in [0, 1], the blend has a non-negative dot product with the sample |
| `Smoothing.BlendNonZero` | driver_files/src/Driver/ControllerDevice.cpp:181-206 | from a unit stored orientation and a factor in [0, 1), or a non-zero sample at factor 1, the blend is never zero, so the renormalisation never divides by zero |
| `Smoothing.Renormalized` | driver_files/src/Driver/ControllerDevice.cpp:197-206 | the blend divided by its magnitude is a unit quaternion; scaled back by the positive magnitude it gives the blend again |
| `Smoothing.RenormalizeUnit` | driver_files/src/Driver/ControllerDevice.cpp:197-206 | renormalising a unit quaternion leaves it unchanged |
| `Pose.Slots` | driver_files/src/Driver/ControllerDevice.hpp:50-53 | seven slots built from a position and an orientation give back that position and that orientation |
| `Pose.SlotsOfParts` | driver_files/src/Driver/ControllerDevice.hpp:50-53 | every seven-slot pose is rebuilt exactly from its position and orientation |
| `Pose.InitialSlotsIdentity` | driver_files/src/Driver/ControllerDevice.hpp:50 | the initial target pose is at the origin with the identity orientation, which is a unit quaternion |
| `Pose.DeltaSeconds` | driver_files/src/Driver/ControllerDevice.cpp:108-114 | the frame interval is positive exactly when the millisecond clock advanced, and zero exactly when it did not move |
| `Pose.HeightOffsetShiftsY` | driver_files/src/Driver/ControllerDevice.cpp:122-124 | the published position differs from the target only in y, by the height offset |
| `Pose.PublishedPosition` | driver_files/src/Driver/ControllerDevice.cpp:122-124 | the published position: the target position with y raised by the height offset (properties in `HeightOffsetShiftsY`) |
| `Pose.FilterAxis` | driver_files/src/Driver/ControllerDevice.cpp:134-136 | one axis of the velocity filter: 80% of the old velocity plus 20% of the finite difference over the interval |
| `Pose.FilteredVelocity` | driver_files/src/Driver/ControllerDevice.cpp:132-137 | the velocity filter leaves the velocity alone unless the clock advanced |
| `Pose.FilterSteadyMotion` | driver_files/src/Driver/ControllerDevice.cpp:132-137 | on one axis, motion at a steady velocity is a fixed point of the 80/20 filter |
| `Pose.FilteredVelocitySteady` | driver_files/src/Driver/ControllerDevice.cpp:132-137 | motion at a steady 3-D velocity reproduces that velocity |
| `Pose.FilteredVelocityStill` | driver_files/src/Driver/ControllerDevice.cpp:132-137 | a device that did not move keeps 80% of its previous velocity |
| `Pose.FilterAxisBounded` | driver_files/src/Driver/ControllerDevice.cpp:132-137 | a speed bound that holds for both the previous velocity and the finite difference also holds for the filtered velocity |
| `Pose.Recalibrated` | driver_files/src/Driver/ControllerDevice.cpp:146-161 | the stored correction (w negated), composed with the orientation it came from, gives minus the squared magnitude on w and zero elsewhere; it keeps the magnitude |
| `Pose.PublishSameInstant` | driver_files/src/Driver/ControllerDevice.cpp:132-137 | two frames in the same millisecond report the previous velocity unchanged |
| `Pose.Publish` | driver_files/src/Driver/ControllerDevice.cpp:119-138 | the published pose of a frame: the given position and rotation, the filtered velocity from the previous pose, the time offset and the driver-from-head rotation |
| `Session.DriverSession.constructor` | driver_files/src/Driver/HMDDevice.cpp:11-13 | the height offset starts at zero and the view lock starts unrequested and free |
| `Session.AdjustedHeight` | driver_files/src/Driver/ControllerDevice.cpp:257-265 | the reset button zeroes the offset; otherwise up raises it by 0.02, down lowers it by 0.02, and both together (or neither) leave it |
| `Session.HeightAfterFramesLinear` | driver_files/src/Driver/ControllerDevice.cpp:257-259 | holding only the up button for n frames raises the offset by n times 0.02 |
| `Controller.RecalibrationButton` | driver_files/src/Driver/ControllerDevice.cpp:146-158 | the left hand recalibrates on BTN_TRIGGER_HAPPY2, the right on BTN_TRIGGER_HAPPY3, any other handedness never |
| `Controller.ControllerPose` | driver_files/src/Driver/ControllerDevice.cpp:117-165 | the pose a controller publishes in a frame; its fields are stated by `ControllerPoseFields` |
| `Controller.ControllerPoseFields` | driver_files/src/Driver/ControllerDevice.cpp:117-165 | every field of the published controller pose: the raised position, the target orientation, the filtered velocity, the time offset, and the correction that undoes the orientation when recalibrating (the previous one otherwise) |
| `Controller.ControllerDevice.constructor` | driver_files/src/Driver/ControllerDevice.hpp:50-53 | a new controller has the identity target pose, a zero time offset and no device index |
| `Controller.ControllerDevice.UpdatePos` | driver_files/src/Driver/ControllerDevice.cpp:168-176 | the position slots become the smoothed position, the orientation slots and the unit-orientation invariant are kept, and the time offset is stored |
| `Controller.ControllerDevice.UpdateRot` | driver_files/src/Driver/ControllerDevice.cpp:178-210 | the orientation slots become the renormalised blend and hold a unit quaternion, the position is kept, and the time offset is stored |
| `Controller.ControllerDevice.Update` | driver_files/src/Driver/ControllerDevice.cpp:91-166 | an inactive device changes nothing; otherwise the clock is stored and the published pose is the controller pose for this frame, recalibrating exactly when this hand's button is down |
| `Controller.ControllerDevice.RunFrame` | driver_files/src/Driver/ControllerDevice.cpp:227-265 | the left controller applies the height buttons to the shared offset; the right one leaves it alone |
| `Controller.ControllerDevice.Activate` | driver_files/src/Driver/ControllerDevice.cpp:298-300 | the device index becomes the host's object id |
| `Controller.ControllerDevice.Deactivate` | driver_files/src/Driver/ControllerDevice.cpp:351-354 | the device index becomes invalid |
| `Controller.ControllerDevice.GetPose` | driver_files/src/Driver/ControllerDevice.cpp:371-374 | the last published pose |
| `InputEvents.Abs` | driver_files/src/Driver/input.cpp:334 | the magnitude compared with the deadzone is the value or its negation |
| `InputEvents.ClearStale` | driver_files/src/Driver/input.cpp:164-169 | after clearing, a key below KEY_MAX stays latched only if it is still held, nothing new is latched, and every latched key that is held (or beyond KEY_MAX) is kept; the loop's return flag `ret` is `StaleBelow`, true exactly when some key below KEY_MAX was latched and released, and it feeds `KeyboardRead` and `ChangedIff` |
| `InputEvents.ClearStaleIdempotent` | driver_files/src/Driver/input.cpp:164-169 | clearing twice with the same held flags is clearing once |
| `InputEvents.KeyStep` | driver_files/src/Driver/input.cpp:191-205 | an event that is not a press or release of a key between 1 and KEY_MAX - 1 changes nothing |
| `InputEvents.KeyEvents` | driver_files/src/Driver/input.cpp:176-207 | the key switch folded over a read's batch in order; characterised by `LatchedIff`, `HeldMatches` and `ChangedIff` |
| `InputEvents.HeldAfter` | driver_files/src/Driver/input.cpp:191-205 | the per-key reference for the held flag: the last press or release of the key decides |
| `InputEvents.KeyboardRead` | driver_files/src/Driver/input.cpp:160-210 | a closed device only clears the stale latches and reports no change |
| `InputEvents.LatchedIff` | driver_files/src/Driver/input.cpp:191-205 | after a batch, a key is latched if and only if it was latched before or the batch holds a press of it |
| `InputEvents.HeldMatches` | driver_files/src/Driver/input.cpp:191-205 | the held flag of a key after a batch is what its last press or release in the batch says, or its old value if the batch has neither |
| `InputEvents.ChangedIff` | driver_files/src/Driver/input.cpp:191-205 | the read reports a change if and only if one was already reported or the batch holds a key press or release |
| `InputEvents.IgnoredBatch` | driver_files/src/Driver/input.cpp:191-205 | a batch without key presses or releases leaves the latches untouched |
| `InputEvents.TapInOneBatch` | driver_files/src/Driver/input.cpp:191-205 | a press and a release in one batch leave the key latched but not held |
| `InputEvents.TapSeenOnce` | driver_files/src/Driver/input.cpp:160-210 | a key tapped within one read is reported by that read and cleared by the next read, which gets no events |
| `InputEvents.HeldKeyStaysLatched` | driver_files/src/Driver/input.cpp:164-169 | a latched key that is still held survives a read, whether the device is open or not |
| `InputEvents.AxisStep` | driver_files/src/Driver/input.cpp:332-346 | an event that is not an absolute-axis event below ABS_MAX changes nothing |
| `InputEvents.JoyStep` | driver_files/src/Driver/input.cpp:315-346 | one event of Joystick::read: the key switch, then the axis filter |
| `InputEvents.JoyEvents` | driver_files/src/Driver/input.cpp:300-347 | the joystick's event loop folded over the batch in order |
| `InputEvents.JoystickRead` | driver_files/src/Driver/input.cpp:284-350 | a closed joystick only clears the stale latches, keeps its axes, and reports no change |
| `InputEvents.DeadzoneKept` | driver_files/src/Driver/input.cpp:332-346 | if every stored axis value is zero or outside the deadzone before a batch, this still holds after it |
| `InputEvents.AxisEventStored` | driver_files/src/Driver/input.cpp:332-346 | an axis value outside the deadzone is stored, with its held flag set when it is non-zero; a value inside the deadzone stores zero and clears the flag; a value equal to the flag (as 0 or 1) is ignored |
| `InputEvents.AxisValueOneIgnoredWhileHeld` | driver_files/src/Driver/input.cpp:333 | an axis reading of 1 is dropped while the shared held flag of its code is set |
| `InputEvents.KeySharesAxisFlag` | driver_files/src/Driver/input.cpp:315-336 | a key press sets the same held flag that the axis filter compares with |
| `InputEvents.AxisLeavesLatches` | driver_files/src/Driver/input.cpp:332-346 | axis events never touch the button latches |
| `InputEvents.JoyLatchesAreKeyLatches` | driver_files/src/Driver/input.cpp:315-346 | over any batch the joystick's latches equal the keyboard's: the axis filter never decides a latch |
| `InputEvents.JoyLatchedIff` | driver_files/src/Driver/input.cpp:315-330 | after a joystick batch, a button is latched if and only if it was latched before or the batch holds a press of it |
| `InputEvents.ButtonAt` | driver_files/src/Driver/input.cpp:391-395 | a button reads pressed if and only if it lies in 0..KEY_MAX - 1 and is latched |
| `InputEvents.AxisAt` | driver_files/src/Driver/input.cpp:411-415 | an axis in 0..ABS_MAX - 1 reads its stored value; any other axis reads 0 |
| `InputEvents.RelSumAppend` | driver_files/src/Driver/input.cpp:79-87 | the motion accumulated over two batches in turn is the sum over each |
| `InputEvents.RelSumNone` | driver_files/src/Driver/input.cpp:79-87 | a batch with no motion on an axis adds nothing to it |
| `InputEvents.RelSum` | driver_files/src/Driver/input.cpp:79-87 | the sum of the values of a batch's relative-motion events of one code |
| `InputEvents.Accumulated` | driver_files/src/Driver/input.cpp:79-87 | a present counter plus the batch's motion on its code; a null counter stays null |
| `InputDevices.Keyboard.constructor` | driver_files/src/Driver/input.cpp:112-117 | a new keyboard is closed with no key latched or held |
| `InputDevices.Keyboard.IsOpen` | driver_files/src/Driver/input.cpp:151-158 | the keyboard is open exactly when its descriptor is non-negative |
| `InputDevices.Keyboard.Read` | driver_files/src/Driver/input.cpp:160-210 | the latch arrays and the return value are exactly the keyboard read of the old arrays and the batch |
| `InputDevices.Keyboard.GetKey` | driver_files/src/Driver/input.cpp:355-373 | an open keyboard is read when the throttle allows it; a key reads pressed exactly when the keyboard is open and the key is in range and latched |
| `InputDevices.Joystick.constructor` | driver_files/src/Driver/input.cpp:233-241 | a new joystick is closed with the given deadzone, no button latched or held, and all axes zero |
| `InputDevices.Joystick.IsOpen` | driver_files/src/Driver/input.cpp:275-282 | the joystick is open exactly when its descriptor is non-negative |
| `InputDevices.Joystick.Read` | driver_files/src/Driver/input.cpp:284-350 | the latches, held flags, axes and return value are exactly the joystick read of the old state and the batch |
| `InputDevices.Joystick.ApplyKey` | driver_files/src/Driver/input.cpp:315-330 | one event's key switch, as KeyStep |
| `InputDevices.Joystick.ApplyAxis` | driver_files/src/Driver/input.cpp:332-346 | one event's deadzone filter, as AxisStep |
| `InputDevices.Joystick.GetJoyButton` | driver_files/src/Driver/input.cpp:378-396 | an open joystick is read when the throttle allows it; a button reads pressed exactly when the joystick is open and the button is in range and latched |
| `InputDevices.Joystick.GetJoyAxis` | driver_files/src/Driver/input.cpp:398-416 | an open joystick is read when the throttle allows it; the result is the axis value when open and in range, and 0 otherwise |
| `InputDevices.Mouse.constructor` | driver_files/src/Driver/input.cpp:18 | a new mouse is closed |
| `InputDevices.Mouse.Read` | driver_files/src/Driver/input.cpp:56-92 | a closed mouse changes nothing and reports false; an open one adds every REL_X and REL_Y step to the counter it has, and reports true exactly when a counter it has received motion |
| `HMD.ViewLockFlagFollowsRequest` | driver_files/src/Driver/HMDDevice.cpp:79-111 | after a frame the lock is held exactly when it is requested; the published position is always the raised target position |
| `HMD.ViewLockCaptureAndHold` | driver_files/src/Driver/HMDDevice.cpp:79-99 | a request with the lock free captures the raised target pose and publishes the target orientation; with the lock held it keeps the captured pose and publishes its orientation |
| `HMD.ViewLockReleased` | driver_files/src/Driver/HMDDevice.cpp:100-111 | without a request the lock is released, the lock pose is kept, and the target orientation is published |
| `HMD.ViewLockStep` | driver_files/src/Driver/HMDDevice.cpp:79-111 | one frame of the view lock: capture on a request that finds the lock free, the captured orientation while requested and held, release and the target orientation otherwise; the position always follows the target (properties in the three lemmas above) |
| `HMD.LockedRotations` | driver_files/src/Driver/HMDDevice.cpp:79-99 | over any run of frames with the lock requested, every frame publishes the same orientation: the one captured in the first frame, or the one already held |
| `HMD.MountComponents` | driver_files/src/Driver/HMDDevice.cpp:129-131 | the components of the product that the headset publishes as its driver-from-head rotation |
| `HMD.MountUnit` | driver_files/src/Driver/HMDDevice.cpp:129-131 | with true cosine/sine pairs, the driver-from-head rotation is a unit quaternion |
| `HMD.MountRotation` | driver_files/src/Driver/HMDDevice.cpp:129-131 | the driver-from-head rotation: the -45 degree turn about y composed with the 30 degree turn about x, from their half-angle cosines and sines |
| `HMD.HeadsetPose` | driver_files/src/Driver/HMDDevice.cpp:90-135 | the pose the headset publishes: the view-lock step's position and rotation, the filtered velocity, the time offset and the mount rotation |
| `HMD.WindowYSettingMisplaced` | driver_files/src/Driver/HMDDevice.cpp:211-216 | as written, a window_y setting moves the window's x and leaves its y |
| `HMD.ApplyWindowSettingsAsWritten` | driver_files/src/Driver/HMDDevice.cpp:204-230 | the settings step as written: y never changes, and a positive window_y lands in x |
| `HMD.Setting` | driver_files/src/Driver/HMDDevice.cpp:204-230 | a setting replaces a window field exactly when it is present and positive |
| `HMD.ApplyWindowSettings` | driver_files/src/Driver/HMDDevice.cpp:204-230 | the settings step with each setting in its own field (properties in `WindowSettingsApplied`) |
| `HMD.WindowSettingsApplied` | driver_files/src/Driver/HMDDevice.cpp:204-230 | with each setting in its own field, every present positive setting lands in its field, every other field is kept, and applying the settings again changes nothing |
| `HMD.EyeViewportsTile` | driver_files/src/Driver/HMDDevice.cpp:316-328 | the two eye viewports start at the top with the window's height and have equal widths; the left starts at the left edge and the right where the left ends; together they span the window's width rounded down to even |
| `HMD.EyeOutputViewport` | driver_files/src/Driver/HMDDevice.cpp:316-328 | an eye's viewport: the left or right half of the window, full height |
| `HMD.ProjectionMirrored` | driver_files/src/Driver/HMDDevice.cpp:330-342 | the two eye frusta mirror each other about the centre line, meet there, are non-degenerate, and share the vertical extent from -1 to 1 |
| `HMD.ProjectionRaw` | driver_files/src/Driver/HMDDevice.cpp:330-342 | the raw projection of each eye: -1.706161137 to 0 for the left, 0 to 1.706161137 for the right, -1 to 1 vertically |
| `HMD.ComputeDistortion` | driver_files/src/Driver/HMDDevice.cpp:344-354 | no lens correction: every colour channel samples the given point, for either eye |
| `HMD.HMDDevice.constructor` | driver_files/src/Driver/HMDDevice.cpp:49-51 | a new headset has the identity target pose, a zero time offset and no device index (assumed as in ControllerDevice.hpp) |
| `HMD.HMDDevice.UpdatePos` | driver_files/src/Driver/HMDDevice.cpp:138-146 | the position slots become the smoothed position, the orientation is kept, and the time offset is stored |
| `HMD.HMDDevice.UpdateRot` | driver_files/src/Driver/HMDDevice.cpp:148-180 | the orientation slots become the renormalised blend and hold a unit quaternion, and the time offset is stored |
| `HMD.HMDDevice.CaptureViewLock` | driver_files/src/Driver/HMDDevice.cpp:79-89 | a request with the lock free copies the raised target pose into the lock pose and takes the lock; otherwise nothing changes |
| `HMD.HMDDevice.Update` | driver_files/src/Driver/HMDDevice.cpp:58-136 | an inactive device changes nothing; otherwise the clock is stored, the lock flag and lock pose follow the view-lock step, and the published pose carries that step's position and rotation, the filtered velocity, the time offset and the mount rotation |
| `HMD.HMDDevice.Activate` | driver_files/src/Driver/HMDDevice.cpp:196-230 | the device index becomes the host's object id, and the window takes the corrected settings step (see Left out and Findings) |
| `HMD.HMDDevice.Deactivate` | driver_files/src/Driver/HMDDevice.cpp:264-267 | the device index becomes invalid |
| `HMD.HMDDevice.GetPose` | driver_files/src/Driver/HMDDevice.cpp:287-290 | the last published pose |
| `HMD.HMDDevice.GetEyeOutputViewport` | driver_files/src/Driver/HMDDevice.cpp:316-328 | the eye's half of the current window |
| `HMD.HMDDevice.GetNextPose` | driver_files/src/Driver/HMDDevice.cpp:359-362 | the predictor stub always answers -1 |
| `HMD.HMDDevice.SaveCurrentPose` | driver_files/src/Driver/HMDDevice.cpp:355-357 | the stub changes nothing |
| `HMD.HMDDevice.Reinit` | driver_files/src/Driver/HMDDevice.cpp:364-366 | the stub changes nothing |

## Left out

- Device I/O: `open`, `fcntl`, `read` and `close`, and the device paths, are
  left out. A read's events are a parameter, and `fd` stands for whether the
  device is open.
- The reopen attempt of the `get*` functions is left out: their device is
  open or not as given.
- Keyboard::close and Joystick::close do not reset `fd`, so a closed device
  would still count as open. The model has no `close`.
- `GetKey`, `GetJoyButton`, `GetJoyAxis`: the 1/60 s throttle is the
  `elapsedTicks` parameter. The source never assigns `lastGetKeyTime` or
  `lastGetJoystickTime`, so the elapsed time is counted from the
  steady_clock epoch and in practice every call reads the device.
- The declared `axes[]` array of the joystick is never used by the source,
  and it is not modelled.
- The wall clock and `std::chrono` are left out. `Update` takes the time in
  milliseconds.
- `cos`, `sin` and `sqrt` are left out. The mount rotation takes the
  half-angle cosines and sines, and renormalisation uses any function that
  returns non-negative square roots.
- `Quaternion.Product`: its multiplicativity of the norm is not proved in
  general, only for the mount rotation (`HMD.MountUnit`).
- Floating point is left out. Doubles and floats are reals, so rounding, NaN
  and infinities are not captured.
- The `int` counters and event values are unbounded. 32-bit overflow of the
  mouse counters and `abs(INT_MIN)` are not captured.
- `Controller.ControllerDevice.UpdateRot`, `HMD.HMDDevice.UpdateRot`: both
  require a non-zero blend, where the source would divide by zero.
  `Smoothing.BlendNonZero` gives the conditions that rule this out.
- The vibration animation, the trackpad (`hypot`, `atan2`) and the trigger,
  grip and system buttons of `RunFrame` are left out. So are `SetDirection`
  and the host API calls: pose posting, property registration and input
  component creation.
- `Controller.ControllerDevice.RunFrame`, `Controller.ControllerDevice.Update`:
  `getJoyButton` is called afresh
  for each button in the source, in `RunFrame` and in `Update`'s
  recalibration test. The model gives all buttons of a frame as one
  snapshot `joyButton`. What the snapshot hides: each call reads the
  joystick again and clears released latches, so a button tapped within one
  batch is seen only by the first `getJoyButton` call of the frame.
- `InputDevices.Mouse.Read`: the two counters are independent values, so
  the case where the caller passes the same pointer for both (both axes'
  motion in one counter) is not captured.
- `HMD.HMDDevice.Activate`: it applies the corrected settings step
  `ApplyWindowSettings`. The source stores the window_y setting into the x
  field. `ApplyWindowSettingsAsWritten` models that code, and the Findings
  table records the difference.
- `HMD.HMDDevice.UpdateRot`, `Controller.ControllerDevice.UpdateRot`: the
  source writes the four blended components back one by one before
  renormalising. The model computes the blend as a value and writes only the
  final components.
- HMDDevice.hpp is not part of this model. The headset's initial window and
  initial view-lock pose are constructor parameters. Its identity target
  pose, zero time offset and invalid device index are assumed to be the
  same as in ControllerDevice.hpp.
- The logging calls are left out, and so are these members, which compute
  nothing the model relies on:
  - `GetSerial`, `GetDeviceType`, `GetDeviceIndex`, `GetWindowBounds` and
    `GetRecommendedRenderTargetSize` return fields or constants;
  - `IsDisplayOnDesktop` returns true and `IsDisplayRealDisplay` false;
  - `EnterStandby` and `HMDDevice::RunFrame` do nothing;
  - `GetComponent` compares the requested interface name, ignoring case, with
    the display component's version and returns the device or null;
  - `DebugRequest` writes a terminating zero byte into a response buffer of
    at least one byte.

## Findings

| source | as written | input that shows it | evidently intended | confidence | as-written member | corrected member |
|---|---|---|---|---|---|---|
| driver_files/src/Driver/HMDDevice.cpp:211-216 | the window_y setting is stored into `window_x_` | window (0, 0, 1920, 1080) with only window_y = 100 becomes (100, 0, 1920, 1080) | window_y sets `window_y_` | high (not executed) | `HMD.WindowYSettingMisplaced` | `HMD.WindowSettingsApplied` |
