/** The three globals the devices share (defined in HMDDevice.cpp): the
    height offset the left controller adjusts and every device adds to its
    published y, and the two flags of the headset's view lock. */
module Session {

  class DriverSession {
    var heightOffset: real
    var viewLockRequested: bool
    var viewLocked: bool

    constructor()
      ensures heightOffset == 0.0 && !viewLockRequested && !viewLocked
    {
      heightOffset := 0.0;
      viewLockRequested := false;
      viewLocked := false;
    }
  }

  /** How far one frame with the button held moves the height offset. */
  const HeightStep: real := 0.02

  /** The height-offset part of the left controller's RunFrame: up raises,
      down lowers (both apply when both are held), and reset, applied last,
      wins over both. */
  function AdjustedHeight(h: real, up: bool, down: bool, reset: bool): (r: real)
    ensures reset ==> r == 0.0
    ensures !reset && up && !down ==> r == h + HeightStep
    ensures !reset && down && !up ==> r == h - HeightStep
    ensures !reset && up == down ==> r == h
  {
    var raised := if up then h + HeightStep else h;
    var lowered := if down then raised - HeightStep else raised;
    if reset then 0.0 else lowered
  }

  /** Holding up for n frames raises the offset by n steps. */
  function HeightAfterFrames(h: real, n: nat): real {
    if n == 0 then h else AdjustedHeight(HeightAfterFrames(h, n - 1), true, false, false)
  }

  lemma {:induction false} HeightAfterFramesLinear(h: real, n: nat)
    ensures HeightAfterFrames(h, n) == h + (n as real) * HeightStep
  {
    if n > 0 {
      HeightAfterFramesLinear(h, n - 1);
    }
  }
}
