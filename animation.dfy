// The player sprite animation of the engine-based demo: a clip per animation state,
// a component that steps through the current clip's frames each time its repeating
// timer finishes, the choice of state and facing from the movement intent, and the
// frames on which a footstep sounds.
module Animation {
  import opened Wrappers

  datatype AnimationState = Idling | Walking

  /** A repeating timer: its period and whether it finished on the latest tick.
      How a tick of a given length sets the flag is the engine's affair. */
  datatype Timer = Timer(durationMs: nat, finished: bool)

  /** Timer::new: a timer of the given period that has not yet finished. */
  function NewTimer(durationMs: nat): (t: Timer)
    ensures t.durationMs == durationMs && !t.finished
  {
    Timer(durationMs, false)
  }

  /** An image the asset server loads, identified by its path. */
  datatype ImageHandle = ImageHandle(path: string)

  datatype PlayerAnimationClip = PlayerAnimationClip(
    baseImage: ImageHandle,
    hairImage: Option<ImageHandle>,
    frames: nat,
    width: nat,
    height: nat,
    durationMs: nat)

  /** Every clip shows each frame for this many milliseconds. */
  const ClipDurationMs: nat := 50

  /** PlayerAnimationClip::new: the base image is loaded from basePath; the hair
      path is never read, so no clip carries a hair image. */
  function NewClip(basePath: string, hairPath: Option<string>, frames: nat, width: nat, height: nat)
    : (c: PlayerAnimationClip)
    ensures c.baseImage.path == basePath && c.hairImage == None
    ensures c.frames == frames && c.width == width && c.height == height
    ensures c.durationMs == ClipDurationMs
  {
    PlayerAnimationClip(ImageHandle(basePath), None, frames, width, height, ClipDurationMs)
  }

  /** The clip does not depend on the hair path it is given. */
  lemma NewClipIgnoresHairPath(basePath: string, h1: Option<string>, h2: Option<string>,
                               frames: nat, width: nat, height: nat)
    ensures NewClip(basePath, h1, frames, width, height) == NewClip(basePath, h2, frames, width, height)
  {
  }

  /** The state the movement intent calls for: idling exactly when there is none. */
  function MovementState(intentX: real, intentY: real): (s: AnimationState)
    ensures s == Idling <==> intentX == 0.0 && intentY == 0.0
  {
    if intentX == 0.0 && intentY == 0.0 then Idling else Walking
  }

  /** The sprite's facing after an intent: a horizontal intent turns the sprite
      towards it (flipped when it points left); without one the facing is kept. */
  function NewFlip(flipX: bool, intentX: real): (f: bool)
    ensures intentX < 0.0 ==> f
    ensures intentX > 0.0 ==> !f
    ensures intentX == 0.0 ==> f == flipX
  {
    if intentX != 0.0 then intentX < 0.0 else flipX
  }

  /** Whether a footstep sounds: only while walking, on a tick that changed the
      frame, and only as frame 2 or frame 5 comes up. */
  predicate StepDue(state: AnimationState, changed: bool, frame: nat)
  {
    state == Walking && changed && (frame == 2 || frame == 5)
  }

  /** trigger_step_sound_effect for one animation: the step sound played, chosen
      from the available steps by pick, which stands for the random choice. The
      source unwraps the choice, so it needs a step to choose from whenever one
      is due. */
  function StepSound<S>(state: AnimationState, changed: bool, frame: nat, steps: seq<S>, pick: nat)
    : (played: Option<S>)
    requires StepDue(state, changed, frame) ==> |steps| > 0
    ensures played.Some? <==> StepDue(state, changed, frame)
    ensures played.Some? ==> played.value in steps
  {
    if StepDue(state, changed, frame) then Some(steps[pick % |steps|]) else None
  }

  class PlayerAnimation {
    var timer: Timer
    var frame: nat
    var state: AnimationState
    var clip: PlayerAnimationClip

    /** The frame is one of the clip's frames; a clip without frames leaves it 0. */
    ghost predicate Valid()
      reads this
    {
      frame < clip.frames || frame == 0
    }

    /** new: frame 0 of a copy of the start clip, idling, with a fresh timer of
        the clip's period. */
    constructor (startClip: PlayerAnimationClip)
      ensures Valid()
      ensures frame == 0 && state == Idling && clip == startClip
      ensures timer == NewTimer(startClip.durationMs)
    {
      timer := NewTimer(startClip.durationMs);
      frame := 0;
      state := Idling;
      clip := startClip;
    }

    /** changed: whether the latest tick finished the timer. */
    predicate Changed()
      reads this
    {
      timer.finished
    }

    /** update_timer, given whether this tick finishes the timer: a finished tick
        moves the frame one step round the clip, any other tick leaves it. The
        step takes the frame modulo the clip's frame count, which the source does
        not guard, so a finishing tick needs a clip with frames. */
    method UpdateTimer(finished: bool)
      requires Valid()
      requires finished ==> clip.frames > 0
      modifies this
      ensures Valid()
      ensures timer == old(timer).(finished := finished) && Changed() == finished
      ensures state == old(state) && clip == old(clip)
      ensures frame == if finished then (old(frame) + 1) % clip.frames else old(frame)
      ensures frame != old(frame) ==> Changed()
    {
      timer := timer.(finished := finished);
      if !timer.finished {
        return;
      }
      frame := (frame + 1) % clip.frames;
    }

    /** update_state: a new state with a clip for it restarts the animation on
        that clip; the same state, or no clip, changes nothing. */
    method UpdateState(newState: AnimationState, newClip: Option<PlayerAnimationClip>)
      requires Valid()
      modifies this
      ensures Valid()
      ensures if old(state) != newState && newClip.Some?
              then state == newState && clip == newClip.value && frame == 0
                   && timer == NewTimer(newClip.value.durationMs)
              else state == old(state) && clip == old(clip) && frame == old(frame) && timer == old(timer)
    {
      if state != newState && newClip.Some? {
        timer := NewTimer(newClip.value.durationMs);
        frame := 0;
        state := newState;
        clip := newClip.value;
      }
    }

    /** update_animation_movement for one player: the sprite's new facing and the
        image it shows. The state follows the intent whenever the assets hold a
        clip for the state it calls for. */
    method UpdateMovement(intentX: real, intentY: real, flipX: bool,
                          actions: map<AnimationState, PlayerAnimationClip>)
      returns (newFlipX: bool, image: ImageHandle)
      requires Valid()
      modifies this
      ensures Valid()
      ensures newFlipX == NewFlip(flipX, intentX)
      ensures MovementState(intentX, intentY) in actions ==> state == MovementState(intentX, intentY)
      ensures var s := MovementState(intentX, intentY);
              s in actions && old(state) != s
              ==> clip == actions[s] && frame == 0 && timer == NewTimer(actions[s].durationMs)
      ensures var s := MovementState(intentX, intentY);
              s in actions && old(state) == s
              ==> clip == old(clip) && frame == old(frame) && timer == old(timer)
      ensures MovementState(intentX, intentY) !in actions
              ==> state == old(state) && clip == old(clip) && frame == old(frame) && timer == old(timer)
      ensures image == clip.baseImage
    {
      newFlipX := flipX;
      if intentX != 0.0 {
        newFlipX := intentX < 0.0;
      }
      var animationState := if intentX == 0.0 && intentY == 0.0 then Idling else Walking;
      var found := if animationState in actions then Some(actions[animationState]) else None;
      UpdateState(animationState, found);
      image := clip.baseImage;
    }
  }

  /** Two calls of update_state with the same arguments do what one does. */
  method UpdateStateTwice(a: PlayerAnimation, newState: AnimationState, newClip: Option<PlayerAnimationClip>)
    requires a.Valid()
    modifies a
    ensures a.Valid()
    ensures if old(a.state) != newState && newClip.Some?
            then a.state == newState && a.clip == newClip.value && a.frame == 0
                 && a.timer == NewTimer(newClip.value.durationMs)
            else a.state == old(a.state) && a.clip == old(a.clip) && a.frame == old(a.frame) && a.timer == old(a.timer)
  {
    a.UpdateState(newState, newClip);
    a.UpdateState(newState, newClip);
  }
}
