/** The animation wrapper that stops on a key press (src/animations/KeyPressStoppableAnimation.java).
    The key is assumed held when the wrapper starts, so the first frame that sees it pressed only
    clears that assumption and a later pressed frame stops the animation. */
module KeyPress {
  /** The two flags of the wrapper. */
  datatype Latch = Latch(stop: bool, isAlreadyPressed: bool)

  /** The flags after construction. */
  const INITIAL: Latch := Latch(false, true)

  /** isKeyPressed with the sampled key state as input. */
  function PressStep(s: Latch, pressed: bool): (s': Latch)
    ensures !pressed ==> s' == s
    ensures s'.stop == (s.stop || (pressed && !s.isAlreadyPressed))
    ensures s'.isAlreadyPressed == (s.isAlreadyPressed && !pressed)
  {
    if pressed && s.isAlreadyPressed then s.(isAlreadyPressed := false)
    else if pressed then s.(stop := true)
    else s
  }

  /** The flags after a run of frames. */
  function RunFrames(s: Latch, frames: seq<bool>): Latch
    decreases |frames|
  {
    if frames == [] then s else RunFrames(PressStep(s, frames[0]), frames[1..])
  }

  /** The number of frames in which the key was pressed. */
  function PressedCount(frames: seq<bool>): nat
  {
    if frames == [] then 0 else (if frames[0] then 1 else 0) + PressedCount(frames[1..])
  }

  /** The flags as a function of how many pressed frames the wrapper has seen, capped at two. */
  function AfterPresses(n: nat): Latch
  {
    if n == 0 then INITIAL else if n == 1 then Latch(false, false) else Latch(true, false)
  }

  lemma {:induction false} RunFramesCountsPresses(n: nat, frames: seq<bool>)
    ensures RunFrames(AfterPresses(n), frames) == AfterPresses(if n + PressedCount(frames) >= 2 then 2 else n + PressedCount(frames))
    decreases |frames|
  {
    if frames != [] {
      var m := if n + (if frames[0] then 1 else 0) >= 2 then 2 else n + (if frames[0] then 1 else 0);
      assert PressStep(AfterPresses(n), frames[0]) == AfterPresses(m);
      RunFramesCountsPresses(m, frames[1..]);
    }
  }

  /** Whatever the key does, the wrapper stops exactly when the key has been seen pressed in at least
      two frames, pressed frames need not be separated by a release, and isAlreadyPressed stays true
      exactly until the first pressed frame. */
  lemma StopsOnSecondPress(frames: seq<bool>)
    ensures RunFrames(INITIAL, frames).stop <==> PressedCount(frames) >= 2
    ensures RunFrames(INITIAL, frames).isAlreadyPressed <==> PressedCount(frames) == 0
  {
    RunFramesCountsPresses(0, frames);
  }

  /** Once set, stop stays set; once cleared, isAlreadyPressed stays cleared. */
  lemma {:induction false} FlagsAreMonotone(s: Latch, frames: seq<bool>)
    ensures s.stop ==> RunFrames(s, frames).stop
    ensures !s.isAlreadyPressed ==> !RunFrames(s, frames).isAlreadyPressed
    decreases |frames|
  {
    if frames != [] {
      FlagsAreMonotone(PressStep(s, frames[0]), frames[1..]);
    }
  }

  class KeyPressStoppableAnimation {
    const key: string
    var stop: bool
    var isAlreadyPressed: bool

    constructor(k: string)
      ensures key == k
      ensures Latch(stop, isAlreadyPressed) == INITIAL
    {
      key := k;
      stop := false;
      isAlreadyPressed := true;
    }

    /** isKeyPressed: one sample of the key per frame. */
    method IsKeyPressed(pressed: bool)
      modifies this
      ensures Latch(stop, isAlreadyPressed) == PressStep(old(Latch(stop, isAlreadyPressed)), pressed)
    {
      if pressed && isAlreadyPressed {
        isAlreadyPressed := false;
        return;
      }
      if pressed {
        stop := true;
      }
    }

    /** shouldStop: the stop flag. */
    method ShouldStop() returns (s: bool)
      ensures s == stop
    {
      s := stop;
    }
  }
}
