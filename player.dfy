// The earlier player character: the full action table of the character sheets, the
// sprite paths built from it, and the per-frame update, in which any movement plays
// the roll strip.
module Player {
  import opened Wrappers
  import opened Hair
  import opened Decimal
  import opened Input
  import Paths

  datatype Action =
    | Attack | Axe | Carry | Casting | Caught | Death | Dig | Doing | Hammering | Hurt
    | Idle | Jump | Mining | Reeling | Roll | Run | Swimming | Waiting | Walking | Watering

  /** Seconds each animation frame is shown. */
  const FrameTime: real := 0.15

  const PathPrefix: string := "assets/Characters/Human/"

  /** dirname: the directory of an action's strips. Each names its action alone,
      and none holds a path separator. */
  function Dirname(a: Action): (d: string)
    ensures |d| > 0 && '/' !in d
    ensures ActionOfDirname(d) == Some(a)
  {
    match a
    case Attack => "ATTACK"
    case Axe => "AXE"
    case Carry => "CARRY"
    case Casting => "CASTING"
    case Caught => "CAUGHT"
    case Death => "DEATH"
    case Dig => "DIG"
    case Doing => "DOING"
    case Hammering => "HAMMERING"
    case Hurt => "HURT"
    case Idle => "IDLE"
    case Jump => "JUMP"
    case Mining => "MINING"
    case Reeling => "REELING"
    case Roll => "ROLL"
    case Run => "RUN"
    case Swimming => "SWIMMING"
    case Waiting => "WAITING"
    case Walking => "WALKING"
    case Watering => "WATERING"
  }

  /** The action whose directory is d, if any (the inverse of Dirname). */
  function ActionOfDirname(d: string): Option<Action>
  {
    if d == "ATTACK" then Some(Attack)
    else if d == "AXE" then Some(Axe)
    else if d == "CARRY" then Some(Carry)
    else if d == "CASTING" then Some(Casting)
    else if d == "CAUGHT" then Some(Caught)
    else if d == "DEATH" then Some(Death)
    else if d == "DIG" then Some(Dig)
    else if d == "DOING" then Some(Doing)
    else if d == "HAMMERING" then Some(Hammering)
    else if d == "HURT" then Some(Hurt)
    else if d == "IDLE" then Some(Idle)
    else if d == "JUMP" then Some(Jump)
    else if d == "MINING" then Some(Mining)
    else if d == "REELING" then Some(Reeling)
    else if d == "ROLL" then Some(Roll)
    else if d == "RUN" then Some(Run)
    else if d == "SWIMMING" then Some(Swimming)
    else if d == "WAITING" then Some(Waiting)
    else if d == "WALKING" then Some(Walking)
    else if d == "WATERING" then Some(Watering)
    else None
  }

  /** The actions whose strip files carry a lower-case name of their own. */
  predicate HasOwnFileName(a: Action)
  {
    a == Idle || a == Roll || a == Run || a == Walking
  }

  /** file_component: the action's part of a strip file name. It is the directory
      name for every action except the four with a file name of their own. */
  function FileComponent(a: Action): (c: string)
    ensures !HasOwnFileName(a) <==> c == Dirname(a)
  {
    match a
    case Idle => "idle"
    case Roll => "roll"
    case Run => "run"
    case Walking => "walk"
    case _ => Dirname(a)
  }

  /** The actions that have a strip of more than one frame. */
  predicate Animated(a: Action)
  {
    a == Idle || a == Walking || a == Run || a == Jump || a == Attack || a == Roll
  }

  /** frame_count: never 0, so stepping modulo it is defined; a single frame stands
      in for every action without an animation. */
  function FrameCount(a: Action): (n: nat)
    ensures 1 <= n <= 10
    ensures n > 1 <==> Animated(a)
  {
    match a
    case Idle => 9
    case Walking => 8
    case Run => 8
    case Jump => 9
    case Attack => 10
    case Roll => 10
    case _ => 1
  }

  /** get_path: the sprite strip of an action for a hair style, in the action's
      directory under the character folder, ending with the strip suffix. */
  function GetPath(a: Action, h: HairStyle): (p: string)
    ensures |p| > |PathPrefix + Dirname(a) + "/"| + |Paths.StripSuffix(FrameCount(a))|
    ensures p[..|PathPrefix + Dirname(a) + "/"|] == PathPrefix + Dirname(a) + "/"
    ensures p[|p| - |Paths.StripSuffix(FrameCount(a))|..] == Paths.StripSuffix(FrameCount(a))
  {
    PathPrefix + Dirname(a) + "/" + ToStr(h) + "_" + FileComponent(a) + Paths.StripSuffix(FrameCount(a))
  }

  /** Different actions or different hair styles never share a strip path. */
  lemma {:induction false} GetPathInjective(a1: Action, h1: HairStyle, a2: Action, h2: HairStyle)
    ensures GetPath(a1, h1) == GetPath(a2, h2) <==> a1 == a2 && h1 == h2
  {
    if GetPath(a1, h1) == GetPath(a2, h2) {
      Paths.StripPathParts(PathPrefix,
                           Dirname(a1), ToStr(h1), FileComponent(a1), Paths.StripSuffix(FrameCount(a1)),
                           Dirname(a2), ToStr(h2), FileComponent(a2), Paths.StripSuffix(FrameCount(a2)));
      assert Some(a1) == ActionOfDirname(Dirname(a1)) == ActionOfDirname(Dirname(a2)) == Some(a2);
      ToStrInjective(h1, h2);
    }
  }

  /** The idle strip of the plain character, written out. */
  lemma IdleBasePath()
    ensures GetPath(Idle, Base) == "assets/Characters/Human/IDLE/base_idle_strip9.png"
  {
    assert ToDecimal(9) == "9";
  }

  /** An action without an animation: its directory name doubles as its file name,
      and its strip has one frame. */
  lemma AxeCurlyPath()
    ensures GetPath(Axe, Curly) == "assets/Characters/Human/AXE/curlyhair_AXE_strip1.png"
  {
    assert ToDecimal(1) == "1";
    assert FileComponent(Axe) == "AXE";
  }

  /** The texture keys new loads: the base and own-hair strips of IDLE and WALKING. */
  function LoadedTextures(h: HairStyle): (keys: set<(HairStyle, Action)>)
    ensures forall k :: k in keys <==> (k.0 == Base || k.0 == h) && (k.1 == Idle || k.1 == Walking)
  {
    {(Base, Idle), (Base, Walking), (h, Idle), (h, Walking)}
  }

  /** The action update settles on: the roll strip while the keys give a net
      direction, idling otherwise. */
  function MoveAction(keys: Keys): (a: Action)
    ensures a == Roll <==> KeyAxis(keys.left, keys.right) != 0 || KeyAxis(keys.up, keys.down) != 0
    ensures a == Roll || a == Idle
  {
    if KeyAxis(keys.left, keys.right) != 0 || KeyAxis(keys.up, keys.down) != 0 then Roll else Idle
  }

  /** Any movement selects a strip that new never loads, so the texture lookup in
      draw finds no entry once the player has moved. */
  lemma MovedActionNotLoaded(keys: Keys, h: HairStyle)
    requires KeyAxis(keys.left, keys.right) != 0 || KeyAxis(keys.up, keys.down) != 0
    ensures (Base, MoveAction(keys)) !in LoadedTextures(h)
  {
  }

  class Player {
    var speed: real
    var hairStyle: HairStyle
    var frameTimer: real
    var currentFrame: nat
    var currentAction: Action
    var flipX: bool

    /** The frame is inside the current strip and the timer has not yet reached a
        frame time. */
    ghost predicate Valid()
      reads this
    {
      currentFrame < FrameCount(currentAction) && 0.0 <= frameTimer < FrameTime
    }

    /** new: idle, facing right, on frame 0, at the given speed. */
    constructor (speed: real, hairStyle: HairStyle)
      ensures Valid()
      ensures this.speed == speed && this.hairStyle == hairStyle && !flipX
      ensures currentAction == Idle && currentFrame == 0 && frameTimer == 0.0
    {
      this.speed := speed;
      this.hairStyle := hairStyle;
      frameTimer := 0.0;
      currentFrame := 0;
      currentAction := Idle;
      flipX := false;
    }

    /** update for one frame of dt seconds, the key state an input: right sets the
        facing to the right, else left to the left; the action follows MoveAction;
        a change of action restarts the animation; the timer then advances the
        frame by one, round the strip. */
    method Update(keys: Keys, dt: real)
      requires Valid() && dt >= 0.0
      modifies this
      ensures Valid()
      ensures speed == old(speed) && hairStyle == old(hairStyle)
      ensures flipX == (if keys.right then false else if keys.left then true else old(flipX))
      ensures currentAction == MoveAction(keys)
      ensures var restart := currentAction != old(currentAction);
              var frame := if restart then 0 else old(currentFrame);
              var timer := if restart then 0.0 else old(frameTimer);
              if timer + dt >= FrameTime
              then currentFrame == (frame + 1) % FrameCount(currentAction) && frameTimer == 0.0
              else currentFrame == frame && frameTimer == timer + dt
    {
      var dx, dy := 0, 0;
      var prevAction := currentAction;

      if keys.left {
        dx := dx - 1;
        flipX := true;
      }
      if keys.right {
        dx := dx + 1;
        flipX := false;
      }
      if keys.up {
        dy := dy - 1;
      }
      if keys.down {
        dy := dy + 1;
      }

      if dx != 0 || dy != 0 {
        currentAction := Roll;
      } else {
        currentAction := Idle;
      }

      if prevAction != currentAction {
        currentFrame := 0;
        frameTimer := 0.0;
      }

      frameTimer := frameTimer + dt;
      if frameTimer >= FrameTime {
        frameTimer := 0.0;
        currentFrame := (currentFrame + 1) % FrameCount(currentAction);
      }
    }
  }
}
