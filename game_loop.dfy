// The single-file prototype's main loop: the player's idle strip is animated by a
// frame counter that a timer advances, and frames are cut from a 96 x 64 strip.
// The tile map it draws is the one of PrototypeMap (same size, ids and offset).
module GameLoop {
  import opened Atlas

  /** Frames in the idle strip, and seconds each frame is shown. */
  const FrameCount: nat := 9
  const FrameTime: real := 0.15

  /** The strip cell size of the character sheets. */
  const StripFrameWidth: int := 96
  const StripFrameHeight: int := 64

  /** player_uv: the frame-th cell of the horizontal 96 x 64 strip. */
  function PlayerUv(frame: u16): (r: Rect)
    ensures r.w == StripFrameWidth && r.h == StripFrameHeight && r.y == 0
    ensures r.x % r.w == 0 && r.x / r.w == frame as int
  {
    Rect(frame as int * StripFrameWidth, 0, StripFrameWidth, StripFrameHeight)
  }

  /** The loop's animation state: the current frame and the seconds accumulated
      towards the next one. */
  datatype Clock = Clock(frame: nat, timer: real)

  const Start: Clock := Clock(0, 0.0)

  /** One pass of the loop's animation step with frame time dt: the timer
      accumulates dt, and once it reaches FrameTime it restarts and the frame moves
      one step round the strip. */
  function Advance(c: Clock, dt: real): (n: Clock)
    ensures c.frame < FrameCount ==> n.frame < FrameCount
    ensures n.frame == c.frame || n.frame == (c.frame + 1) % FrameCount
    ensures n.frame != c.frame <==> c.timer + dt >= FrameTime
    ensures n.frame != c.frame ==> n.timer == 0.0
    ensures c.timer + dt < FrameTime ==> n.timer == c.timer + dt
    ensures 0.0 <= c.timer && 0.0 <= dt ==> 0.0 <= n.timer < FrameTime
  {
    var timer := c.timer + dt;
    if timer >= FrameTime then Clock((c.frame + 1) % FrameCount, 0.0) else Clock(c.frame, timer)
  }

  /** The clock before pass i of a trace. */
  function Before(trace: seq<Clock>, i: nat): Clock
    requires i <= |trace|
  {
    if i == 0 then Start else trace[i - 1]
  }

  /** The main loop run for one pass per frame time in dts, recording the clock
      after each pass: current_frame stays below FRAME_COUNT on every pass. */
  method RunAnimation(dts: seq<real>) returns (trace: seq<Clock>)
    ensures |trace| == |dts|
    ensures forall i {:trigger dts[i]} :: 0 <= i < |trace| ==> trace[i] == Advance(Before(trace, i), dts[i])
    ensures forall i :: 0 <= i < |trace| ==> trace[i].frame < FrameCount
  {
    var currentFrame: nat := 0;
    var frameTimer := 0.0;
    trace := [];
    var k := 0;
    while k < |dts|
      invariant 0 <= k <= |dts| && |trace| == k
      invariant currentFrame < FrameCount
      invariant Clock(currentFrame, frameTimer) == Before(trace, k)
      invariant forall i {:trigger dts[i]} :: 0 <= i < k ==> trace[i] == Advance(Before(trace, i), dts[i])
      invariant forall i :: 0 <= i < k ==> trace[i].frame < FrameCount
    {
      frameTimer := frameTimer + dts[k];
      if frameTimer >= FrameTime {
        frameTimer := 0.0;
        currentFrame := (currentFrame + 1) % FrameCount;
      }
      ghost var done := trace;
      trace := trace + [Clock(currentFrame, frameTimer)];
      assert forall i :: 0 <= i <= k ==> Before(trace, i) == Before(done, i);
      k := k + 1;
    }
  }
}
