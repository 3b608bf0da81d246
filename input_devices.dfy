/** The device readers of input.cpp: Keyboard and Joystick keep their latch
    arrays in place and are proved against the functions of InputEvents;
    Mouse accumulates motion into the caller's counters. The events a read
    gets from the non-blocking device are a parameter: the batch the system
    delivers before the first failed, empty or short read. */
module InputDevices {
  import opened Wrappers
  import opened InputEvents

  class Keyboard {
    /** The device descriptor; negative when the device is not open. */
    var fd: int
    const a: array<bool>
    const state: array<bool>

    ghost predicate Valid()
      reads this
    {
      a.Length == KEY_CNT && state.Length == KEY_CNT && a != state
    }

    constructor()
      ensures Valid() && fresh(a) && fresh(state) && fd == -1
      ensures forall c :: 0 <= c < KEY_CNT ==> !a[c] && !state[c]
    {
      fd := -1;
      a := new bool[KEY_CNT] (_ => false);
      state := new bool[KEY_CNT] (_ => false);
    }

    predicate IsOpen()
      reads this
    {
      fd >= 0
    }

    /** Keyboard::read. */
    method Read(events: seq<InputEvent>) returns (ret: bool)
      requires Valid()
      modifies a, state
      ensures Valid()
      ensures Latch(a[..], state[..], ret) == KeyboardRead(old(a[..]), old(state[..]), IsOpen(), events)
    {
      ret := false;
      for c := 0 to KEY_MAX
        invariant forall k :: 0 <= k < c ==> a[k] == ClearStale(old(a[..]), old(state[..]))[k]
        invariant forall k :: c <= k < KEY_CNT ==> a[k] == old(a[k])
        invariant state[..] == old(state[..])
        invariant ret == StaleBelow(old(a[..]), old(state[..]), c)
      {
        if a[c] && !state[c] {
          a[c] := false;
          ret := true;
        }
      }
      assert a[..] == ClearStale(old(a[..]), old(state[..]));
      if fd < 0 {
        return false;
      }
      ghost var start := Latch(a[..], state[..], ret);
      for i := 0 to |events|
        invariant Latch(a[..], state[..], ret) == KeyEvents(start, events[..i])
      {
        var ev := events[i];
        assert events[..i + 1][..i] == events[..i];
        if ev.evType == EV_KEY && ev.code > 0 && ev.code < KEY_MAX {
          if ev.value == 0 {
            state[ev.code] := false;
            ret := true;
          } else if ev.value == 1 {
            state[ev.code] := true;
            a[ev.code] := true;
            ret := true;
          }
        }
      }
      assert events[..|events|] == events;
    }

    /** getKey on the driver's keyboard: when the device is open, read it if
        the throttle lets the read through (`elapsedTicks`, in 1/60 s), then
        report the latch of an in-range key. */
    method GetKey(key: int, events: seq<InputEvent>, elapsedTicks: int) returns (pressed: bool)
      requires Valid()
      modifies a, state
      ensures Valid()
      ensures IsOpen() && elapsedTicks > 0 ==>
        a[..] == KeyboardRead(old(a[..]), old(state[..]), true, events).a
        && state[..] == KeyboardRead(old(a[..]), old(state[..]), true, events).state
      ensures !(IsOpen() && elapsedTicks > 0) ==> a[..] == old(a[..]) && state[..] == old(state[..])
      ensures pressed == (IsOpen() && ButtonAt(a[..], key))
    {
      pressed := false;
      if IsOpen() {
        if elapsedTicks > 0 {
          var _ := Read(events);
        }
        if key >= 0 && key < KEY_MAX {
          pressed := a[key];
        }
      }
    }
  }

  class Joystick {
    var fd: int
    const a: array<bool>
    const b: array<int>
    /** Held flags, shared by key codes and axis codes. */
    const state: array<bool>
    const deadzone: int

    ghost predicate Valid()
      reads this
    {
      a.Length == KEY_CNT && state.Length == KEY_CNT && b.Length == ABS_CNT && a != state
    }

    ghost function Snapshot(): JoyState
      requires Valid()
      reads this, a, state, b
    {
      JoyState(Latch(a[..], state[..], false), b[..])
    }

    constructor(deadzone: int)
      ensures Valid() && fresh(a) && fresh(state) && fresh(b) && fd == -1
      ensures this.deadzone == deadzone
      ensures forall c :: 0 <= c < KEY_CNT ==> !a[c] && !state[c]
      ensures forall c :: 0 <= c < ABS_CNT ==> b[c] == 0
    {
      fd := -1;
      this.deadzone := deadzone;
      a := new bool[KEY_CNT] (_ => false);
      state := new bool[KEY_CNT] (_ => false);
      b := new int[ABS_CNT] (_ => 0);
    }

    predicate IsOpen()
      reads this
    {
      fd >= 0
    }

    /** Joystick::read. */
    method Read(events: seq<InputEvent>) returns (ret: bool)
      requires Valid()
      modifies a, state, b
      ensures Valid()
      ensures JoyState(Latch(a[..], state[..], ret), b[..])
              == JoystickRead(old(Snapshot()), IsOpen(), events, deadzone)
    {
      ret := false;
      for c := 0 to KEY_MAX
        invariant forall k :: 0 <= k < c ==> a[k] == ClearStale(old(a[..]), old(state[..]))[k]
        invariant forall k :: c <= k < KEY_CNT ==> a[k] == old(a[k])
        invariant state[..] == old(state[..]) && b[..] == old(b[..])
        invariant ret == StaleBelow(old(a[..]), old(state[..]), c)
      {
        if a[c] && !state[c] {
          a[c] := false;
          ret := true;
        }
      }
      assert a[..] == ClearStale(old(a[..]), old(state[..]));
      if fd < 0 {
        return false;
      }
      ghost var start := JoyState(Latch(a[..], state[..], ret), b[..]);
      for i := 0 to |events|
        invariant JoyState(Latch(a[..], state[..], ret), b[..]) == JoyEvents(start, events[..i], deadzone)
      {
        var ev := events[i];
        assert events[..i + 1][..i] == events[..i];
        ret := ApplyKey(ev, ret);
        ret := ApplyAxis(ev, ret);
      }
      assert events[..|events|] == events;
    }

    /** The key switch of one event. */
    method ApplyKey(ev: InputEvent, ret: bool) returns (ret': bool)
      requires Valid()
      modifies a, state
      ensures JoyState(Latch(a[..], state[..], ret'), b[..])
              == JoyState(KeyStep(Latch(old(a[..]), old(state[..]), ret), ev), b[..])
    {
      ret' := ret;
      if ev.evType == EV_KEY && ev.code > 0 && ev.code < KEY_MAX {
        if ev.value == 0 {
          state[ev.code] := false;
          ret' := true;
        } else if ev.value == 1 {
          state[ev.code] := true;
          a[ev.code] := true;
          ret' := true;
        }
      }
    }

    /** The deadzone filter of one event. */
    method ApplyAxis(ev: InputEvent, ret: bool) returns (ret': bool)
      requires Valid()
      modifies state, b
      ensures JoyState(Latch(a[..], state[..], ret'), b[..])
              == AxisStep(JoyState(Latch(a[..], old(state[..]), ret), old(b[..])), ev, deadzone)
    {
      ret' := ret;
      if ev.evType == EV_ABS && ev.code >= 0 && ev.code < ABS_MAX {
        if ev.value != (if state[ev.code] then 1 else 0) {
          if Abs(ev.value) > Abs(deadzone) {
            b[ev.code] := ev.value;
            state[ev.code] := ev.value != 0;
            ret' := true;
          } else {
            b[ev.code] := 0;
            if state[ev.code] {
              ret' := true;
            }
            state[ev.code] := false;
          }
        }
      }
    }

    /** getJoyButton on the driver's joystick. */
    method GetJoyButton(button: int, events: seq<InputEvent>, elapsedTicks: int) returns (pressed: bool)
      requires Valid()
      modifies a, state, b
      ensures Valid()
      ensures IsOpen() && elapsedTicks > 0 ==>
        b[..] == JoystickRead(old(Snapshot()), true, events, deadzone).b
        && a[..] == JoystickRead(old(Snapshot()), true, events, deadzone).keys.a
        && state[..] == JoystickRead(old(Snapshot()), true, events, deadzone).keys.state
      ensures !(IsOpen() && elapsedTicks > 0) ==> Snapshot() == old(Snapshot())
      ensures pressed == (IsOpen() && ButtonAt(a[..], button))
    {
      pressed := false;
      if IsOpen() {
        if elapsedTicks > 0 {
          var _ := Read(events);
        }
        if button >= 0 && button < KEY_MAX {
          pressed := a[button];
        }
      }
    }

    /** getJoyAxis on the driver's joystick. */
    method GetJoyAxis(axis: int, events: seq<InputEvent>, elapsedTicks: int) returns (value: int)
      requires Valid()
      modifies a, state, b
      ensures Valid()
      ensures IsOpen() && elapsedTicks > 0 ==>
        b[..] == JoystickRead(old(Snapshot()), true, events, deadzone).b
        && a[..] == JoystickRead(old(Snapshot()), true, events, deadzone).keys.a
        && state[..] == JoystickRead(old(Snapshot()), true, events, deadzone).keys.state
      ensures !(IsOpen() && elapsedTicks > 0) ==> Snapshot() == old(Snapshot())
      ensures value == (if IsOpen() then AxisAt(b[..], axis) else 0)
    {
      value := 0;
      if IsOpen() {
        if elapsedTicks > 0 {
          var _ := Read(events);
        }
        if axis >= 0 && axis < ABS_MAX {
          value := b[axis];
        }
      }
    }
  }

  class Mouse {
    var fd: int

    constructor()
      ensures fd == -1
    {
      fd := -1;
    }

    /** Mouse::read: the counters are the caller's `int *x` and `int *y`,
        None standing for a null pointer; the new counter values are
        returned. */
    method Read(events: seq<InputEvent>, x: Option<int>, y: Option<int>)
      returns (newX: Option<int>, newY: Option<int>, ret: bool)
      ensures fd < 0 ==> newX == x && newY == y && !ret
      ensures fd >= 0 ==> newX == Accumulated(x, events, REL_X) && newY == Accumulated(y, events, REL_Y)
      ensures fd >= 0 ==> ret == ((x.Some? && HasRel(events, REL_X)) || (y.Some? && HasRel(events, REL_Y)))
    {
      newX, newY := x, y;
      if fd < 0 {
        return x, y, false;
      }
      ret := false;
      for i := 0 to |events|
        invariant newX == Accumulated(x, events[..i], REL_X)
        invariant newY == Accumulated(y, events[..i], REL_Y)
        invariant ret == ((x.Some? && HasRel(events[..i], REL_X)) || (y.Some? && HasRel(events[..i], REL_Y)))
      {
        var ev := events[i];
        assert events[..i + 1][..i] == events[..i];
        assert forall code :: HasRel(events[..i + 1], code) <==> HasRel(events[..i], code) || IsRel(ev, code) by {
          forall code ensures HasRel(events[..i + 1], code) <==> HasRel(events[..i], code) || IsRel(ev, code) {
            if HasRel(events[..i + 1], code) && !IsRel(ev, code) {
              var k :| 0 <= k < i + 1 && IsRel(events[..i + 1][k], code);
              assert events[..i][k] == events[..i + 1][k];
            }
            if HasRel(events[..i], code) {
              var k :| 0 <= k < i && IsRel(events[..i][k], code);
              assert events[..i + 1][k] == events[..i][k];
            }
            if IsRel(ev, code) {
              assert events[..i + 1][i] == ev;
            }
          }
        }
        if ev.evType == EV_REL && ev.code == REL_X && newX.Some? {
          newX := Some(newX.value + ev.value);
          ret := true;
        }
        if ev.evType == EV_REL && ev.code == REL_Y && newY.Some? {
          newY := Some(newY.value + ev.value);
          ret := true;
        }
      }
      assert events[..|events|] == events;
    }
  }
}
