/**
 * The static animation table (one definition per state: sprite frames,
 * per-frame durations in milliseconds, loop flag, successor, hit frame and
 * glove-drop frame), the tuning constants of the fight, and an explicit
 * frame cursor that stands in for the animation player of the rendering
 * library.
 */
module Animations {
  import opened Types

  // Tuning constants of the fight.
  const HIT_RANGE: real := 50.0
  const HITBOX_WIDTH: real := 40.0
  const MOVE_SPEED: real := 0.8
  const FRICTION: real := 0.9
  const KNOCKBACK_FORCE: real := 8.0

  /** Approximate length of one simulation tick, in milliseconds. */
  const TICK: real := 16.6

  // Sprite-sheet rows used by the table.
  const READY_FRAME: nat := 3
  const GRAB_REACH: nat := 4
  const HIGH_WINDUP: nat := 5
  const HIGH_CONNECT: nat := 6
  const LOW_CONNECT: nat := 7
  const HIT_LOW_FRAME: nat := 13
  const HIT_HIGH_FRAME: nat := 14
  const FALL_1: nat := 15
  const FALL_2: nat := 16

  /** The definition of one animation state. */
  datatype AnimDef = AnimDef(
    frames: seq<nat>,
    durations: seq<real>,
    loop: bool,
    next: Option<AnimationState>,
    hitFrame: Option<nat>,
    hitType: Option<HitType>,
    dropFrame: Option<nat>,
    isStanley: bool)

  function Plain(frames: seq<nat>, durations: seq<real>, loop: bool, next: Option<AnimationState>): AnimDef
  {
    AnimDef(frames, durations, loop, next, None, None, None, false)
  }

  /** The number of frames of each state's animation, as listed in the table. */
  function FrameCount(s: AnimationState): nat
  {
    match s
    case Idle => 1
    case Ready => 1
    case ThrowGloves => 5
    case HighPunch => 3
    case LowPunch => 3
    case Grab => 2
    case HitHigh => 2
    case HitLow => 2
    case Held => 2
    case Falling => 2
    case Down => 1
    case Win => 8
  }

  /** Exactly idle, ready, down and win loop; all other states are one-shot. */
  predicate Loops(s: AnimationState)
  {
    s == Idle || s == Ready || s == Down || s == Win
  }

  /**
   * The animation table, total over the states. Its contract is the shape
   * every consumer relies on: one duration per frame (as many as
   * `FrameCount` says), positive durations, looping exactly as `Loops`
   * says, a successor exactly for the non-looping states, a hit type
   * exactly where there is a hit frame, and hit and drop frames that are
   * never the last frame of their animation.
   */
  function Anim(s: AnimationState): (d: AnimDef)
    ensures |d.frames| == |d.durations| == FrameCount(s) > 0
    ensures forall i :: 0 <= i < |d.durations| ==> d.durations[i] > 0.0
    ensures d.loop == Loops(s)
    ensures d.loop <==> d.next == None
    ensures d.hitFrame.Some? <==> d.hitType.Some?
    ensures d.hitFrame.Some? ==> d.hitFrame.value + 1 < |d.frames|
    ensures d.dropFrame.Some? ==> d.dropFrame.value + 1 < |d.frames|
  {
    match s
    case Idle => Plain([READY_FRAME], [9999.0], true, None)
    case Ready => Plain([READY_FRAME], [9999.0], true, None)
    case ThrowGloves =>
      Plain([0, 0, 1, 2, 3], [60.0 * TICK, 16.0 * TICK, 16.0 * TICK, 8.0 * TICK, 6.0 * TICK], false, Some(Ready))
        .(dropFrame := Some(3))
    case HighPunch =>
      Plain([HIGH_WINDUP, HIGH_CONNECT, READY_FRAME], [5.0 * TICK, 12.0 * TICK, 8.0 * TICK], false, Some(Ready))
        .(hitFrame := Some(1), hitType := Some(Strike(High)))
    case LowPunch =>
      Plain([HIGH_WINDUP, LOW_CONNECT, READY_FRAME], [5.0 * TICK, 12.0 * TICK, 8.0 * TICK], false, Some(Ready))
        .(hitFrame := Some(1), hitType := Some(Strike(Low)))
    case Grab =>
      Plain([GRAB_REACH, READY_FRAME], [20.0 * TICK, 6.0 * TICK], false, Some(Ready))
        .(hitFrame := Some(0), hitType := Some(Grapple))
    case HitHigh => Plain([HIT_HIGH_FRAME, READY_FRAME], [16.0 * TICK, 8.0 * TICK], false, Some(Ready))
    case HitLow => Plain([HIT_LOW_FRAME, READY_FRAME], [16.0 * TICK, 8.0 * TICK], false, Some(Ready))
    case Held => Plain([GRAB_REACH, READY_FRAME], [30.0 * TICK, 4.0 * TICK], false, Some(Ready))
    case Falling => Plain([FALL_1, FALL_2], [12.0 * TICK, 20.0 * TICK], false, Some(Down))
    case Down => Plain([FALL_2], [9999.0], true, None)
    case Win =>
      Plain([0, 1, 2, 3, 4, 5, 6, 7], [300.0, 300.0, 300.0, 300.0, 300.0, 300.0, 300.0, 300.0], true, None)
        .(isStanley := true)
  }

  /** Every one-shot state returns to ready, except falling, which ends in down; down has no successor. */
  lemma Successors(s: AnimationState)
    ensures Anim(s).next ==
              if Anim(s).loop then None
              else if s == Falling then Some(Down)
              else Some(Ready)
    ensures Anim(Down).next == None
  {
  }

  /** Following successors from any state reaches a looping state in at most one step. */
  lemma SuccessorsSettle(s: AnimationState)
    ensures Anim(s).next.Some? ==> Anim(Anim(s).next.value).loop
  {
  }

  /** Only the three attacks have a hit frame: frame 1 for the punches, frame 0 for the grab. */
  lemma HitFrames(s: AnimationState)
    ensures s == HighPunch ==> Anim(s).hitFrame == Some(1) && Anim(s).hitType == Some(Strike(High))
    ensures s == LowPunch ==> Anim(s).hitFrame == Some(1) && Anim(s).hitType == Some(Strike(Low))
    ensures s == Grab ==> Anim(s).hitFrame == Some(0) && Anim(s).hitType == Some(Grapple)
    ensures s != HighPunch && s != LowPunch && s != Grab ==> Anim(s).hitFrame == None
  {
  }

  /** Only throw_gloves drops its gloves, at frame 3 of its 5 frames. */
  lemma DropFrames(s: AnimationState)
    ensures Anim(s).dropFrame == if s == ThrowGloves then Some(3) else None
    ensures |Anim(ThrowGloves).frames| == 5
  {
  }

  /**
   * The playback position of one state's animation: the frame shown, the
   * time already spent on it, whether a one-shot animation has run out, and
   * whether it is playing or paused. The time left on the frame is its
   * duration minus `elapsed`.
   */
  datatype FrameCursor = FrameCursor(frame: nat, elapsed: real, done: bool, playing: bool)

  /** A cursor is on a frame of its state, and only a one-shot animation on its last frame can be done. */
  predicate CursorOk(s: AnimationState, c: FrameCursor)
  {
    && c.frame < FrameCount(s)
    && (c.done ==> !Loops(s) && c.frame == FrameCount(s) - 1)
  }

  /** Restart an animation from the beginning of its first frame and play it. */
  function Rewind(s: AnimationState): (c: FrameCursor)
    ensures CursorOk(s, c) && c.frame == 0 && c.elapsed == 0.0 && !c.done && c.playing
  {
    FrameCursor(0, 0.0, false, true)
  }

  /** Jump to the beginning of frame `k`; an index outside the animation is ignored. */
  function GoToFrame(s: AnimationState, c: FrameCursor, k: int): (r: FrameCursor)
    requires CursorOk(s, c)
    ensures CursorOk(s, r)
    ensures 0 <= k < FrameCount(s) ==> r == FrameCursor(k, 0.0, false, c.playing)
    ensures !(0 <= k < FrameCount(s)) ==> r == c
  {
    if 0 <= k < FrameCount(s) then c.(frame := k, elapsed := 0.0, done := false) else c
  }

  /**
   * Let `delta` milliseconds pass. A paused or finished cursor stays put;
   * otherwise, once the current frame's duration is used up, the cursor
   * moves to the beginning of the next frame, wraps around when the
   * animation loops, or is done when a one-shot animation was on its last
   * frame.
   */
  function Advance(s: AnimationState, c: FrameCursor, delta: real): (r: FrameCursor)
    requires CursorOk(s, c)
    ensures CursorOk(s, r)
    ensures !c.playing || c.done ==> r == c
    ensures r.playing == c.playing
    ensures r.frame == c.frame || r.frame == c.frame + 1 || r.frame == 0
    ensures r.done && !c.done ==> c.frame == FrameCount(s) - 1 && r.frame == c.frame
  {
    var def := Anim(s);
    if !c.playing || c.done then c
    else if c.elapsed + delta < def.durations[c.frame] then c.(elapsed := c.elapsed + delta)
    else if c.frame + 1 < |def.frames| then c.(frame := c.frame + 1, elapsed := 0.0)
    else if def.loop then c.(frame := 0, elapsed := 0.0)
    else c.(elapsed := def.durations[c.frame], done := true)
  }

  /** Advance through a sequence of tick lengths. */
  function AdvanceAll(s: AnimationState, c: FrameCursor, deltas: seq<real>): (r: FrameCursor)
    requires CursorOk(s, c)
    ensures CursorOk(s, r)
    decreases |deltas|
  {
    if deltas == [] then c else AdvanceAll(s, Advance(s, c, deltas[0]), deltas[1..])
  }

  /**
   * A one-shot animation that is at the beginning of a frame and is then
   * ticked with ticks at least as long as its longest frame is done after
   * exactly as many ticks as it has frames left: it spends one tick on each
   * frame and finishes on the last one.
   */
  lemma {:induction false} OneShotFinishes(s: AnimationState, c: FrameCursor, deltas: seq<real>)
    requires !Loops(s)
    requires CursorOk(s, c) && c.playing && !c.done && c.elapsed == 0.0
    requires |deltas| == FrameCount(s) - c.frame
    requires forall i :: 0 <= i < |deltas| ==> forall j :: 0 <= j < |Anim(s).durations| ==> deltas[i] >= Anim(s).durations[j]
    ensures AdvanceAll(s, c, deltas).done
    ensures AdvanceAll(s, c, deltas).frame == FrameCount(s) - 1
    decreases |deltas|
  {
    var n := FrameCount(s);
    var c' := Advance(s, c, deltas[0]);
    assert deltas[0] >= Anim(s).durations[c.frame];
    if c.frame + 1 < n {
      assert c' == c.(frame := c.frame + 1, elapsed := 0.0);
      assert forall i :: 0 <= i < |deltas[1..]| ==> deltas[1..][i] == deltas[i + 1];
      OneShotFinishes(s, c', deltas[1..]);
    } else {
      assert c'.done && c'.frame == n - 1;
      assert deltas[1..] == [];
    }
  }
}
