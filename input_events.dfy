/** Linux input events and the latching rules of the Keyboard, Joystick and
    Mouse readers, stated over sequence snapshots of their arrays. The
    classes in InputDevices are proved against these functions. */
module InputEvents {
  import opened Wrappers

  // Event types and codes from the Linux input-event-codes header.
  const EV_KEY: int := 0x01
  const EV_REL: int := 0x02
  const EV_ABS: int := 0x03
  const REL_X: int := 0x00
  const REL_Y: int := 0x01
  const KEY_MAX: int := 0x2ff
  const KEY_CNT: int := 0x300
  const ABS_MAX: int := 0x3f
  const ABS_CNT: int := 0x40
  const BTN_DPAD_UP: int := 0x220
  const BTN_DPAD_DOWN: int := 0x221
  const BTN_DPAD_RIGHT: int := 0x223
  const BTN_TRIGGER_HAPPY2: int := 0x2c1
  const BTN_TRIGGER_HAPPY3: int := 0x2c2

  /** One `struct input_event` as read from the device, without its
      timestamp. */
  datatype InputEvent = InputEvent(evType: int, code: int, value: int)

  /** C's abs on int (the INT_MIN case is not modelled). */
  function Abs(x: int): (r: nat)
    ensures r == x || r == -x
  {
    if x < 0 then -x else x
  }

  // ---------------------------------------------------------------------
  // Key latches (Keyboard::read and the key half of Joystick::read)

  /** The latched keys `a`, the held keys `state`, and the `ret` flag of a
      read in progress. */
  datatype Latch = Latch(a: seq<bool>, state: seq<bool>, changed: bool)

  predicate WellSized(l: Latch) {
    |l.a| == KEY_CNT && |l.state| == KEY_CNT
  }

  /** An event the key switch acts on: EV_KEY with a code in (0, KEY_MAX). */
  predicate IsKeyEvent(ev: InputEvent) {
    ev.evType == EV_KEY && 0 < ev.code < KEY_MAX
  }

  predicate IsPress(ev: InputEvent, c: int) {
    IsKeyEvent(ev) && ev.code == c && ev.value == 1
  }

  predicate IsRelease(ev: InputEvent, c: int) {
    IsKeyEvent(ev) && ev.code == c && ev.value == 0
  }

  /** An event that sets `ret`: a press or a release of a key in range
      (auto-repeat, value 2, is ignored). */
  predicate IsKeyChange(ev: InputEvent) {
    IsKeyEvent(ev) && (ev.value == 0 || ev.value == 1)
  }

  /** The clearing loop at the start of a read: a key latched but no longer
      held, below KEY_MAX, loses its latch. No stale latch survives, nothing
      is latched that was not, and a held key (or the one at KEY_MAX, which
      the loop never visits) keeps its latch. */
  function ClearStale(a: seq<bool>, state: seq<bool>): (r: seq<bool>)
    requires |a| == KEY_CNT && |state| == KEY_CNT
    ensures |r| == KEY_CNT
    ensures forall c :: 0 <= c < KEY_MAX ==> (r[c] ==> state[c])
    ensures forall c :: 0 <= c < KEY_CNT ==> (r[c] ==> a[c])
    ensures forall c :: 0 <= c < KEY_CNT && a[c] && (state[c] || c >= KEY_MAX) ==> r[c]
  {
    seq(KEY_CNT, c requires 0 <= c < KEY_CNT => a[c] && !(c < KEY_MAX && !state[c]))
  }

  /** Some key below `n` is latched but not held. */
  predicate StaleBelow(a: seq<bool>, state: seq<bool>, n: int)
    requires |a| == KEY_CNT && |state| == KEY_CNT && n <= KEY_CNT
  {
    exists c :: 0 <= c < n && a[c] && !state[c]
  }

  /** One event of the key switch. */
  function KeyStep(l: Latch, ev: InputEvent): (r: Latch)
    requires WellSized(l)
    ensures WellSized(r)
    ensures !IsKeyChange(ev) ==> r == l
  {
    if IsKeyEvent(ev) then
      if ev.value == 0 then
        l.(state := l.state[ev.code := false], changed := true)
      else if ev.value == 1 then
        Latch(l.a[ev.code := true], l.state[ev.code := true], true)
      else
        l
    else
      l
  }

  /** The key switch over a batch of events, in order. */
  function KeyEvents(l: Latch, evs: seq<InputEvent>): (r: Latch)
    requires WellSized(l)
    ensures WellSized(r)
    decreases |evs|
  {
    if |evs| == 0 then l else KeyStep(KeyEvents(l, evs[..|evs| - 1]), evs[|evs| - 1])
  }

  /** Keyboard::read: clear the stale latches, give up with false when the
      device is not open, otherwise run the batch with `ret` starting as
      "some latch was cleared". */
  function KeyboardRead(a: seq<bool>, state: seq<bool>, open: bool, evs: seq<InputEvent>): (r: Latch)
    requires |a| == KEY_CNT && |state| == KEY_CNT
    ensures WellSized(r)
    ensures !open ==> r == Latch(ClearStale(a, state), state, false)
  {
    var cleared := ClearStale(a, state);
    if open then KeyEvents(Latch(cleared, state, StaleBelow(a, state, KEY_MAX)), evs)
    else Latch(cleared, state, false)
  }

  /** A per-key reference for the held flag: the last press or release of
      `c` in the batch decides; without one the flag is what it was. */
  function HeldAfter(held: bool, c: int, evs: seq<InputEvent>): bool
    decreases |evs|
  {
    if |evs| == 0 then held
    else if IsPress(evs[|evs| - 1], c) then true
    else if IsRelease(evs[|evs| - 1], c) then false
    else HeldAfter(held, c, evs[..|evs| - 1])
  }

  /** A key in range ends the batch latched exactly when it was latched
      already or the batch presses it; keys out of range never change. */
  lemma {:induction false} LatchedIff(l: Latch, evs: seq<InputEvent>, c: int)
    requires WellSized(l) && 0 <= c < KEY_CNT
    ensures KeyEvents(l, evs).a[c] <==> l.a[c] || exists i :: 0 <= i < |evs| && IsPress(evs[i], c)
    decreases |evs|
  {
    if |evs| > 0 {
      var init := evs[..|evs| - 1];
      LatchedIff(l, init, c);
      var last := evs[|evs| - 1];
      if KeyEvents(l, evs).a[c] && !l.a[c] {
        if KeyEvents(l, init).a[c] {
          var i :| 0 <= i < |init| && IsPress(init[i], c);
          assert evs[i] == init[i];
        } else {
          assert IsPress(last, c);
        }
      }
      if exists i :: 0 <= i < |evs| && IsPress(evs[i], c) {
        var i :| 0 <= i < |evs| && IsPress(evs[i], c);
        if i < |evs| - 1 {
          assert init[i] == evs[i];
        }
      }
    }
  }

  /** The held flag of every key after a batch is the per-key reference. */
  lemma {:induction false} HeldMatches(l: Latch, evs: seq<InputEvent>, c: int)
    requires WellSized(l) && 0 <= c < KEY_CNT
    ensures KeyEvents(l, evs).state[c] == HeldAfter(l.state[c], c, evs)
    decreases |evs|
  {
    if |evs| > 0 {
      HeldMatches(l, evs[..|evs| - 1], c);
    }
  }

  /** `ret` ends true exactly when it started true or the batch holds a
      press or release of a key in range. */
  lemma {:induction false} ChangedIff(l: Latch, evs: seq<InputEvent>)
    requires WellSized(l)
    ensures KeyEvents(l, evs).changed <==> l.changed || exists i :: 0 <= i < |evs| && IsKeyChange(evs[i])
    decreases |evs|
  {
    if |evs| > 0 {
      var init := evs[..|evs| - 1];
      ChangedIff(l, init);
      if KeyEvents(l, evs).changed && !l.changed {
        if KeyEvents(l, init).changed {
          var i :| 0 <= i < |init| && IsKeyChange(init[i]);
          assert evs[i] == init[i];
        }
      }
      if exists i :: 0 <= i < |evs| && IsKeyChange(evs[i]) {
        var i :| 0 <= i < |evs| && IsKeyChange(evs[i]);
        if i < |evs| - 1 {
          assert init[i] == evs[i];
        }
      }
    }
  }

  /** A batch with no press or release in range changes nothing. */
  lemma {:induction false} IgnoredBatch(l: Latch, evs: seq<InputEvent>)
    requires WellSized(l)
    requires forall i :: 0 <= i < |evs| ==> !IsKeyChange(evs[i])
    ensures KeyEvents(l, evs) == l
    decreases |evs|
  {
    if |evs| > 0 {
      IgnoredBatch(l, evs[..|evs| - 1]);
    }
  }

  /** A press and a release of the same key in one batch: the key is no
      longer held but stays latched, so the tap is not lost. */
  lemma TapInOneBatch(l: Latch, c: int)
    requires WellSized(l) && 0 < c < KEY_MAX
    ensures var r := KeyEvents(l, [InputEvent(EV_KEY, c, 1), InputEvent(EV_KEY, c, 0)]);
      r.a[c] && !r.state[c] && r.changed
  {
    var evs := [InputEvent(EV_KEY, c, 1), InputEvent(EV_KEY, c, 0)];
    assert evs[..1][..0] == [];
    assert evs[..1] == [evs[0]];
  }

  /** The latch of a tapped key is seen by exactly one read: the read that
      follows clears it and reports the change. */
  lemma TapSeenOnce(a: seq<bool>, state: seq<bool>, c: int)
    requires |a| == KEY_CNT && |state| == KEY_CNT && 0 < c < KEY_MAX
    ensures var first := KeyboardRead(a, state, true, [InputEvent(EV_KEY, c, 1), InputEvent(EV_KEY, c, 0)]);
      var second := KeyboardRead(first.a, first.state, true, []);
      first.a[c] && !second.a[c] && second.changed
  {
    var cleared := ClearStale(a, state);
    TapInOneBatch(Latch(cleared, state, StaleBelow(a, state, KEY_MAX)), c);
    var first := KeyboardRead(a, state, true, [InputEvent(EV_KEY, c, 1), InputEvent(EV_KEY, c, 0)]);
    assert first.a[c] && !first.state[c];
    assert StaleBelow(first.a, first.state, KEY_MAX);
  }

  /** A key held across reads stays latched. */
  lemma HeldKeyStaysLatched(a: seq<bool>, state: seq<bool>, open: bool, evs: seq<InputEvent>, c: int)
    requires |a| == KEY_CNT && |state| == KEY_CNT && 0 <= c < KEY_CNT
    requires a[c] && state[c]
    ensures KeyboardRead(a, state, open, evs).a[c]
  {
    if open {
      LatchedIff(Latch(ClearStale(a, state), state, StaleBelow(a, state, KEY_MAX)), evs, c);
    }
  }

  /** Clearing twice is clearing once. */
  lemma ClearStaleIdempotent(a: seq<bool>, state: seq<bool>)
    requires |a| == KEY_CNT && |state| == KEY_CNT
    ensures ClearStale(ClearStale(a, state), state) == ClearStale(a, state)
  {
    var once := ClearStale(a, state);
    var twice := ClearStale(once, state);
    forall c | 0 <= c < KEY_CNT
      ensures twice[c] == once[c]
    {
      if once[c] && c < KEY_MAX {
        assert state[c];
      }
    }
  }

  // ---------------------------------------------------------------------
  // Joystick axes (the axis half of Joystick::read)

  /** The joystick's arrays during a read: the key latches (whose `state`
      array the axes share) and the axis values `b`. */
  datatype JoyState = JoyState(keys: Latch, b: seq<int>)

  predicate JoyWellSized(j: JoyState) {
    WellSized(j.keys) && |j.b| == ABS_CNT
  }

  predicate IsAxisEvent(ev: InputEvent) {
    ev.evType == EV_ABS && 0 <= ev.code < ABS_MAX
  }

  /** C's promotion of the bool `state[code]` for the comparison with the
      event's value. */
  function AsInt(flag: bool): int {
    if flag then 1 else 0
  }

  /** One axis event: a value unlike the shared held flag is stored when it
      lies outside the deadzone (and the flag set), replaced by 0 inside it
      (and the flag cleared, reporting a change only if it was set). */
  function AxisStep(j: JoyState, ev: InputEvent, deadzone: int): (r: JoyState)
    requires JoyWellSized(j)
    ensures JoyWellSized(r)
    ensures !IsAxisEvent(ev) ==> r == j
  {
    if IsAxisEvent(ev) && ev.value != AsInt(j.keys.state[ev.code]) then
      if Abs(ev.value) > Abs(deadzone) then
        JoyState(j.keys.(state := j.keys.state[ev.code := ev.value != 0], changed := true),
                 j.b[ev.code := ev.value])
      else
        JoyState(j.keys.(state := j.keys.state[ev.code := false],
                         changed := j.keys.changed || j.keys.state[ev.code]),
                 j.b[ev.code := 0])
    else
      j
  }

  /** One event of Joystick::read: the key switch, then the axis filter. */
  function JoyStep(j: JoyState, ev: InputEvent, deadzone: int): (r: JoyState)
    requires JoyWellSized(j)
    ensures JoyWellSized(r)
  {
    AxisStep(JoyState(KeyStep(j.keys, ev), j.b), ev, deadzone)
  }

  function JoyEvents(j: JoyState, evs: seq<InputEvent>, deadzone: int): (r: JoyState)
    requires JoyWellSized(j)
    ensures JoyWellSized(r)
    decreases |evs|
  {
    if |evs| == 0 then j else JoyStep(JoyEvents(j, evs[..|evs| - 1], deadzone), evs[|evs| - 1], deadzone)
  }

  /** Joystick::read, in the same shape as KeyboardRead. */
  function JoystickRead(j: JoyState, open: bool, evs: seq<InputEvent>, deadzone: int): (r: JoyState)
    requires JoyWellSized(j)
    ensures JoyWellSized(r)
    ensures !open ==> r == JoyState(Latch(ClearStale(j.keys.a, j.keys.state), j.keys.state, false), j.b)
  {
    var cleared := ClearStale(j.keys.a, j.keys.state);
    var start := JoyState(Latch(cleared, j.keys.state, StaleBelow(j.keys.a, j.keys.state, KEY_MAX)), j.b);
    if open then JoyEvents(start, evs, deadzone) else JoyState(start.keys.(changed := false), j.b)
  }

  /** Every stored axis value is 0 or lies outside the deadzone. */
  predicate DeadzoneRespected(b: seq<int>, deadzone: int) {
    forall c :: 0 <= c < |b| ==> b[c] == 0 || Abs(b[c]) > Abs(deadzone)
  }

  /** The deadzone filter keeps every axis value 0 or outside the deadzone,
      whatever the batch. */
  lemma {:induction false} DeadzoneKept(j: JoyState, evs: seq<InputEvent>, deadzone: int)
    requires JoyWellSized(j) && DeadzoneRespected(j.b, deadzone)
    ensures DeadzoneRespected(JoyEvents(j, evs, deadzone).b, deadzone)
    decreases |evs|
  {
    if |evs| > 0 {
      DeadzoneKept(j, evs[..|evs| - 1], deadzone);
    }
  }

  /** What one axis event does to its axis, when the event is acted on. */
  lemma AxisEventStored(j: JoyState, ev: InputEvent, deadzone: int)
    requires JoyWellSized(j) && IsAxisEvent(ev)
    ensures var r := JoyStep(j, ev, deadzone);
      (ev.value != AsInt(j.keys.state[ev.code]) && Abs(ev.value) > Abs(deadzone) ==>
         r.b[ev.code] == ev.value && r.keys.state[ev.code] && r.keys.changed)
      && (ev.value != AsInt(j.keys.state[ev.code]) && Abs(ev.value) <= Abs(deadzone) ==>
         r.b[ev.code] == 0 && !r.keys.state[ev.code]
         && (r.keys.changed <==> j.keys.changed || j.keys.state[ev.code]))
      && (ev.value == AsInt(j.keys.state[ev.code]) ==> r == j)
      && (forall c :: 0 <= c < ABS_CNT && c != ev.code ==> r.b[c] == j.b[c])
  {
    assert !IsKeyEvent(ev);
  }

  /** The axis filter compares the new value with the shared held flag,
      not with the axis' previous value: while an axis is held outside the
      deadzone, an event of value 1 is ignored and the old value stays. */
  lemma AxisValueOneIgnoredWhileHeld(j: JoyState, code: int, deadzone: int)
    requires JoyWellSized(j) && 0 <= code < ABS_MAX && j.keys.state[code]
    ensures JoyStep(j, InputEvent(EV_ABS, code, 1), deadzone) == j
  {
  }

  /** Keys and axes share the held flags: a key press with the same code as
      an axis marks that axis held. */
  lemma KeySharesAxisFlag(j: JoyState, code: int)
    requires JoyWellSized(j) && 0 < code < ABS_MAX
    ensures JoyStep(j, InputEvent(EV_KEY, code, 1), 0).keys.state[code]
  {
  }

  /** An axis event never touches a latch. */
  lemma AxisLeavesLatches(j: JoyState, ev: InputEvent, deadzone: int)
    requires JoyWellSized(j) && IsAxisEvent(ev)
    ensures JoyStep(j, ev, deadzone).keys.a == j.keys.a
  {
  }

  /** Over a batch the joystick's latches are the keyboard's: the axis
      filter and the held flags it changes never decide a latch. */
  lemma {:induction false} JoyLatchesAreKeyLatches(j: JoyState, evs: seq<InputEvent>, deadzone: int)
    requires JoyWellSized(j)
    ensures JoyEvents(j, evs, deadzone).keys.a == KeyEvents(j.keys, evs).a
    decreases |evs|
  {
    if |evs| > 0 {
      var init := evs[..|evs| - 1];
      JoyLatchesAreKeyLatches(j, init, deadzone);
      KeyStepLatchOnly(JoyEvents(j, init, deadzone).keys, KeyEvents(j.keys, init), evs[|evs| - 1]);
    }
  }

  /** The latches after a key event depend only on the latches before it. */
  lemma KeyStepLatchOnly(l1: Latch, l2: Latch, ev: InputEvent)
    requires WellSized(l1) && WellSized(l2) && l1.a == l2.a
    ensures KeyStep(l1, ev).a == KeyStep(l2, ev).a
  {
  }

  /** The batch-level latch statement for the joystick: a button in range
      ends the batch latched exactly when it was latched already or the
      batch presses it. */
  lemma JoyLatchedIff(j: JoyState, evs: seq<InputEvent>, deadzone: int, c: int)
    requires JoyWellSized(j) && 0 <= c < KEY_CNT
    ensures JoyEvents(j, evs, deadzone).keys.a[c]
            <==> j.keys.a[c] || exists i :: 0 <= i < |evs| && IsPress(evs[i], c)
  {
    JoyLatchesAreKeyLatches(j, evs, deadzone);
    LatchedIff(j.keys, evs, c);
  }

  /** The range guard of getKey and getJoyButton: a latch is reported only
      for a button in [0, KEY_MAX). */
  function ButtonAt(a: seq<bool>, button: int): (r: bool)
    requires |a| == KEY_CNT
    ensures r ==> 0 <= button < KEY_MAX && a[button]
    ensures 0 <= button < KEY_MAX && a[button] ==> r
  {
    if 0 <= button < KEY_MAX then a[button] else false
  }

  /** The range guard of getJoyAxis: 0 for an axis outside [0, ABS_MAX). */
  function AxisAt(b: seq<int>, axis: int): (r: int)
    requires |b| == ABS_CNT
    ensures !(0 <= axis < ABS_MAX) ==> r == 0
    ensures 0 <= axis < ABS_MAX ==> r == b[axis]
  {
    if 0 <= axis < ABS_MAX then b[axis] else 0
  }

  // ---------------------------------------------------------------------
  // Mouse motion (Mouse::read)

  predicate IsRel(ev: InputEvent, code: int) {
    ev.evType == EV_REL && ev.code == code
  }

  /** The sum of the values of the EV_REL events of one code. */
  function RelSum(evs: seq<InputEvent>, code: int): int
    decreases |evs|
  {
    if |evs| == 0 then 0
    else RelSum(evs[..|evs| - 1], code) + (if IsRel(evs[|evs| - 1], code) then evs[|evs| - 1].value else 0)
  }

  predicate HasRel(evs: seq<InputEvent>, code: int) {
    exists i :: 0 <= i < |evs| && IsRel(evs[i], code)
  }

  /** What Mouse::read leaves in a pointed-to counter: the counter plus the
      batch's motion of that code; a null pointer (None) stays null. */
  function Accumulated(counter: Option<int>, evs: seq<InputEvent>, code: int): Option<int> {
    if counter.Some? then Some(counter.value + RelSum(evs, code)) else None
  }

  /** Two batches add up to the motion of the two in sequence, so reading
      in two steps accumulates what one read of both would. */
  lemma {:induction false} RelSumAppend(e1: seq<InputEvent>, e2: seq<InputEvent>, code: int)
    ensures RelSum(e1 + e2, code) == RelSum(e1, code) + RelSum(e2, code)
    decreases |e2|
  {
    if |e2| == 0 {
      assert e1 + e2 == e1;
    } else {
      var init := e2[..|e2| - 1];
      assert (e1 + e2)[..|e1 + e2| - 1] == e1 + init;
      RelSumAppend(e1, init, code);
    }
  }

  /** A batch without motion of a code adds nothing for it. */
  lemma {:induction false} RelSumNone(evs: seq<InputEvent>, code: int)
    requires !HasRel(evs, code)
    ensures RelSum(evs, code) == 0
    decreases |evs|
  {
    if |evs| > 0 {
      RelSumNone(evs[..|evs| - 1], code);
    }
  }
}
