// The human character: its action table, sprite paths, and the per-frame update
// that starts and continues rolls, picks the action and steps the animation.
module Human {
  import opened Hair
  import opened Input
  import opened Wrappers
  import Paths

  datatype CharacterAction = Idle | Roll | Walking

  const IdleAction: CharacterAction := Idle
  const MoveAction: CharacterAction := Walking

  /** Seconds each animation frame is shown. */
  const FrameTime: real := 0.15

  const WalkSpeed: real := 60.0
  const RollSpeed: real := 120.0

  const PathPrefix: string := "assets/Characters/Human/"

  /** dirname: the directory of an action's strips. Each names its action alone,
      and none holds a path separator. */
  function Dirname(a: CharacterAction): (d: string)
    ensures |d| > 0 && '/' !in d
    ensures ActionOfDirname(d) == Some(a)
  {
    match a
    case Idle => "IDLE"
    case Roll => "ROLL"
    case Walking => "WALKING"
  }

  /** The action whose directory is d, if any (the inverse of Dirname). */
  function ActionOfDirname(d: string): Option<CharacterAction>
  {
    if d == "IDLE" then Some(Idle)
    else if d == "ROLL" then Some(Roll)
    else if d == "WALKING" then Some(Walking)
    else None
  }

  function FileComponent(a: CharacterAction): string
  {
    match a
    case Idle => "idle"
    case Roll => "roll"
    case Walking => "walk"
  }

  /** Frames in the action's strip: never 0, so stepping modulo it is defined. */
  function FrameCount(a: CharacterAction): (n: nat)
    ensures 1 <= n <= 10
  {
    match a
    case Idle => 9
    case Walking => 8
    case Roll => 10
  }

  /** get_path: the sprite strip of an action for a hair style. The path lies in the
      action's directory under the character folder and ends with the strip
      suffix, from which the frame count reads back. */
  function GetPath(a: CharacterAction, h: HairStyle): (p: string)
    ensures |p| > |PathPrefix + Dirname(a) + "/"| + |Paths.StripSuffix(FrameCount(a))|
    ensures p[..|PathPrefix + Dirname(a) + "/"|] == PathPrefix + Dirname(a) + "/"
    ensures p[|p| - |Paths.StripSuffix(FrameCount(a))|..] == Paths.StripSuffix(FrameCount(a))
  {
    PathPrefix + Dirname(a) + "/" + ToStr(h) + "_" + FileComponent(a) + Paths.StripSuffix(FrameCount(a))
  }

  /** Different actions or different hair styles never share a strip path. */
  lemma {:induction false} GetPathInjective(a1: CharacterAction, h1: HairStyle, a2: CharacterAction, h2: HairStyle)
    ensures GetPath(a1, h1) == GetPath(a2, h2) <==> a1 == a2 && h1 == h2
  {
    if GetPath(a1, h1) == GetPath(a2, h2) {
      Paths.StripPathParts(PathPrefix,
                           Dirname(a1), ToStr(h1), FileComponent(a1), Paths.StripSuffix(FrameCount(a1)),
                           Dirname(a2), ToStr(h2), FileComponent(a2), Paths.StripSuffix(FrameCount(a2)));
      assert Some(a1) == ActionOfDirname(Dirname(a1)) == ActionOfDirname(Dirname(a2)) == Some(a2);
      ToStrInjective(h1, h2);
    }
  }

  /** The base idle strip is the file the first prototype loads. */
  lemma IdleBasePath()
    ensures GetPath(Idle, Base) == "assets/Characters/Human/IDLE/base_idle_strip9.png"
  {
  }

  /** get_speed: still when idle, walking pace, and twice that when rolling. */
  function GetSpeed(a: CharacterAction): (s: real)
    ensures s == 0.0 <==> a == Idle
    ensures a == Walking ==> s == WalkSpeed
    ensures a == Roll ==> s == RollSpeed && RollSpeed == 2.0 * WalkSpeed
  {
    match a
    case Idle => 0.0
    case Walking => 60.0
    case Roll => 120.0
  }

  /** A roll is under way until its last frame is showing. */
  predicate IsRolling(a: CharacterAction, frame: nat)
  {
    a == Roll && frame != FrameCount(Roll) - 1
  }

  /** The movement the keys produce and the facing that results. */
  datatype Steering = Steering(dx: int, dy: int, flipX: bool)
  {
    predicate Moving() { dx != 0 || dy != 0 }
  }

  /** The steering part of update. A roll under way pushes on in the direction the
      character faces; the keys still set the facing (right wins over left), and
      pressing right during a leftward roll cancels the horizontal motion. */
  function Steer(keys: Keys, rolling: bool, flipX: bool): (s: Steering)
    ensures s.flipX == (if keys.right then false else if keys.left then true else flipX)
    ensures !rolling ==> s.dx == KeyAxis(keys.left, keys.right)
    ensures rolling && !keys.left && !keys.right ==> s.dx == (if flipX then -1 else 1)
    ensures rolling && keys.left && !keys.right ==> s.dx == -1
    ensures rolling && keys.right ==> s.dx == (if flipX || keys.left then 0 else 1)
    ensures s.dy == KeyAxis(keys.up, keys.down)
  {
    var pushLeft := keys.left || (rolling && flipX);
    var faceAfterLeft := if pushLeft then true else flipX;
    var pushRight := keys.right || (rolling && !faceAfterLeft);
    Steering((if pushRight then 1 else 0) - (if pushLeft then 1 else 0),
             KeyAxis(keys.up, keys.down),
             if pushRight then false else faceAfterLeft)
  }

  /** The action update settles on: rolling wins, then walking when the character
      moves onto a walkable tile, and idling otherwise. */
  function ChosenAction(rolling: bool, moving: bool, walkable: bool): (a: CharacterAction)
    ensures a == Roll <==> rolling
    ensures a == Walking <==> !rolling && moving && walkable
  {
    if rolling then Roll else if moving && walkable then MoveAction else IdleAction
  }

  class Human {
    var hairStyle: HairStyle
    var speed: real
    var frameTimer: real
    var currentFrame: nat
    var currentAction: CharacterAction
    var flipX: bool

    /** The frame is inside the current strip, the timer has not yet reached a
        frame time, and the speed is the roll speed exactly while the action is a
        roll, the walking speed otherwise. */
    ghost predicate Valid()
      reads this
    {
      currentFrame < FrameCount(currentAction)
      && 0.0 <= frameTimer < FrameTime
      && speed == (if currentAction == Roll then GetSpeed(Roll) else GetSpeed(MoveAction))
    }

    /** new: idle, facing right, on frame 0, at walking speed. */
    constructor (hairStyle: HairStyle)
      ensures Valid()
      ensures this.hairStyle == hairStyle && !flipX
      ensures currentAction == IdleAction && currentFrame == 0 && frameTimer == 0.0
      ensures speed == GetSpeed(MoveAction)
    {
      this.hairStyle := hairStyle;
      speed := GetSpeed(MoveAction);
      frameTimer := 0.0;
      currentFrame := 0;
      currentAction := IdleAction;
      flipX := false;
    }

    /** update for one frame of dt seconds: the key state and whether the tile the
        character would move onto is walkable are inputs. Space starts a roll
        unless one is under way; the facing and action follow Steer and
        ChosenAction; a roll start or a change of action restarts the animation;
        the timer then advances the frame by one, round the strip. */
    method Update(keys: Keys, walkable: bool, dt: real)
      requires Valid() && dt >= 0.0
      modifies this
      ensures Valid()
      ensures hairStyle == old(hairStyle)
      ensures var wasRolling := IsRolling(old(currentAction), old(currentFrame));
              var steering := Steer(keys, wasRolling, old(flipX));
              flipX == steering.flipX
              && currentAction == ChosenAction(wasRolling || keys.space, steering.Moving(), walkable)
      ensures var restart := (keys.space && !IsRolling(old(currentAction), old(currentFrame)))
                             || currentAction != old(currentAction);
              var frame := if restart then 0 else old(currentFrame);
              var timer := if restart then 0.0 else old(frameTimer);
              if timer + dt >= FrameTime
              then currentFrame == (frame + 1) % FrameCount(currentAction) && frameTimer == 0.0
              else currentFrame == frame && frameTimer == timer + dt
    {
      var prevAction := currentAction;
      var isRolling := currentAction == Roll && currentFrame != FrameCount(Roll) - 1;
      ghost var wasRolling := isRolling;
      ghost var restartFrame, restartTimer := currentFrame, frameTimer;

      var dx, dy := SteerStep(keys, isRolling);

      if keys.space && !isRolling {
        isRolling := true;
        currentAction := Roll;
        currentFrame := 0;
        frameTimer := 0.0;
        speed := GetSpeed(Roll);
      }
      if !isRolling {
        speed := GetSpeed(MoveAction);
      }

      if (dx != 0 || dy != 0) && walkable {
        currentAction := if isRolling then Roll else MoveAction;
      } else {
        currentAction := if isRolling then Roll else IdleAction;
      }

      if prevAction != currentAction {
        currentFrame := 0;
        frameTimer := 0.0;
      }
      assert currentFrame == (if (keys.space && !wasRolling) || currentAction != prevAction then 0 else restartFrame);
      assert frameTimer == (if (keys.space && !wasRolling) || currentAction != prevAction then 0.0 else restartTimer);

      StepAnimation(dt);
    }

    /** The steering part of update: the direction flags move dx and dy and the
        facing, as Steer states. */
    method SteerStep(keys: Keys, isRolling: bool) returns (dx: int, dy: int)
      modifies this`flipX
      ensures Steering(dx, dy, flipX) == Steer(keys, isRolling, old(flipX))
    {
      dx, dy := 0, 0;
      if keys.left || (isRolling && flipX) {
        dx := dx - 1;
        flipX := true;
      }
      if keys.right || (isRolling && !flipX) {
        dx := dx + 1;
        flipX := false;
      }
      if keys.up {
        dy := dy - 1;
      }
      if keys.down {
        dy := dy + 1;
      }
    }

    /** The animation step closing update: the timer accumulates dt, and on reaching
        a frame time it restarts and the frame moves one step round the strip. */
    method StepAnimation(dt: real)
      requires currentFrame < FrameCount(currentAction) && 0.0 <= frameTimer < FrameTime
      requires dt >= 0.0
      modifies this`frameTimer, this`currentFrame
      ensures currentFrame < FrameCount(currentAction) && 0.0 <= frameTimer < FrameTime
      ensures if old(frameTimer) + dt >= FrameTime
              then currentFrame == (old(currentFrame) + 1) % FrameCount(currentAction) && frameTimer == 0.0
              else currentFrame == old(currentFrame) && frameTimer == old(frameTimer) + dt
    {
      frameTimer := frameTimer + dt;
      if frameTimer >= FrameTime {
        frameTimer := 0.0;
        currentFrame := (currentFrame + 1) % FrameCount(currentAction);
      }
    }
  }
}
