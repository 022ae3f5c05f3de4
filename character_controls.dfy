/** The keyboard-driven locomotion controller, as an object whose methods update its fields.

    The character's position, the camera's position and the orbit control's target belong to
    engine objects in the source; here the controller holds them as fields. The constructor is
    proved to reach the state `Initial` computes from its arguments, and SwitchRunToggle, Update
    and UpdateCameraTarget the state one function of module Locomotion computes from the old state;
    the two helpers of Update are specified as updates of the old state built from those functions.
 */
module CharacterControls {
  import opened Directions
  import opened Locomotion

  class Controls {
    const animationsMap: AnimationsMap

    // state
    var toggleRun: bool
    var currentAction: Action

    // the objects the controller moves
    var modelPosition: Vec3
    var cameraPosition: Vec3
    var cameraTarget: Vec3
    var orbitTarget: Vec3

    /** The calls made so far on the clips, the mixer and the character's orientation. */
    var calls: seq<EngineCall>

    function State(): Locomotion.State
      reads this
    {
      Locomotion.State(toggleRun, currentAction, modelPosition, cameraPosition, cameraTarget, orbitTarget, calls)
    }

    /** The controller's invariant: a clip for each action, the camera target above the character,
        and the clip of the current action the one last started. */
    ghost predicate Valid()
      reads this
    {
      Complete(animationsMap) && Anchored(State()) && CurrentIsPlaying(animationsMap, State())
    }

    /** Starts the clip keyed by the initial action and anchors the camera target, without moving
        the camera. */
    constructor (model: Vec3, camera: Vec3, animationsMap: AnimationsMap, currentAction: Action)
      requires DistinctKeys(animationsMap) && Complete(animationsMap)
      ensures this.animationsMap == animationsMap
      ensures State() == Initial(animationsMap, model, camera, currentAction)
      ensures Valid()
    {
      this.animationsMap := animationsMap;
      this.currentAction := currentAction;
      toggleRun := true;
      modelPosition := model;
      cameraPosition := camera;
      cameraTarget := Vec3(0.0, 0.0, 0.0);
      orbitTarget := Vec3(0.0, 0.0, 0.0);
      var started: seq<EngineCall> := [];
      var i := 0;
      while i < |animationsMap|
        invariant 0 <= i <= |animationsMap|
        invariant started == StartCalls(animationsMap[..i], currentAction)
      {
        var (key, value) := animationsMap[i];
        if key == currentAction {
          started := started + [Play(value)];
        }
        assert animationsMap[..i + 1][..i] == animationsMap[..i];
        i := i + 1;
      }
      assert animationsMap[..i] == animationsMap;
      calls := started;
      new;
      UpdateCameraTarget(0.0, 0.0);
      InitialAnchored(animationsMap, model, camera, currentAction);
      InitialCurrentIsPlaying(animationsMap, model, camera, currentAction);
    }

    /** Flips the run toggle and nothing else. */
    method SwitchRunToggle()
      requires Valid()
      modifies this
      ensures State() == Toggled(old(State()))
      ensures Valid()
    {
      toggleRun := !toggleRun;
    }

    /** One frame: pick the action, cross-fade to it, advance the mixer and, when walking or
        running, turn and move the character and the camera. */
    method Update(delta: real, keysPressed: KeysPressed, cameraYaw: real, walkDirection: Vec3)
      requires Valid()
      modifies this
      ensures State() == Step(animationsMap, old(State()), Frame(delta, keysPressed, cameraYaw, walkDirection))
      ensures Valid()
    {
      ghost var before := State();
      var directionPressed := DirectionPressed(keysPressed);

      var play: Action;
      if directionPressed && toggleRun {
        play := Run;
      } else if directionPressed {
        play := Walk;
      } else {
        play := Idle;
      }

      assert play == SelectAction(DirectionPressed(keysPressed), before.toggleRun);
      ghost var f := Frame(delta, keysPressed, cameraYaw, walkDirection);

      CrossFade(play);
      calls := calls + [MixerUpdate(delta)];
      ghost var afterFade := before.(currentAction := play,
                                     calls := before.calls + Transition(animationsMap, before.currentAction, play) + [MixerUpdate(delta)]);
      assert State() == afterFade;

      if currentAction == Run || currentAction == Walk {
        var directionOffset := DirectionOffset(keysPressed);
        var velocity := if currentAction == Run then RunVelocity else WalkVelocity;
        var moveX := walkDirection.x * velocity * delta;
        var moveZ := walkDirection.z * velocity * delta;
        TurnAndMove(cameraYaw, directionOffset, moveX, moveZ);
        assert State() == CameraTargetUpdated(
                 afterFade.(calls := afterFade.calls + [RotateTowards(cameraYaw, directionOffset + HalfTurn, TurnStep)],
                            modelPosition := Vec3(before.modelPosition.x + moveX, before.modelPosition.y, before.modelPosition.z + moveZ)),
                 moveX, moveZ);
        assert velocity == Speed(play);
        StepShape(animationsMap, before, f, play, moveX, moveZ);
      } else {
        assert Speed(play) == 0.0;
        StepShape(animationsMap, before, f, play, 0.0, 0.0);
      }
      assert State() == Step(animationsMap, before, f);

      StepAnchors(animationsMap, before, f);
      StepKeepsCurrentPlaying(animationsMap, before, f);
    }

    /** Fades out the current action's clip and starts the clip of `play`, unless `play` is
        already the current action. */
    method CrossFade(play: Action)
      requires Complete(animationsMap)
      modifies this
      ensures State() == old(State()).(currentAction := play,
                                       calls := old(calls) + Transition(animationsMap, old(currentAction), play))
    {
      if currentAction != play {
        var toPlay := Get(animationsMap, play);
        var current := Get(animationsMap, currentAction);
        calls := calls + [FadeOut(current, FadeDuration)];
        calls := calls + [Reset(toPlay), FadeIn(toPlay, FadeDuration), Play(toPlay)];
        currentAction := play;
      }
    }

    /** Turns the character towards the camera's yaw plus the key offset, moves it by
        (moveX, 0, moveZ) and lets the camera follow. */
    method TurnAndMove(cameraYaw: real, directionOffset: int, moveX: real, moveZ: real)
      modifies this
      ensures State() == CameraTargetUpdated(
                old(State()).(calls := old(calls) + [RotateTowards(cameraYaw, directionOffset + HalfTurn, TurnStep)],
                              modelPosition := Vec3(old(modelPosition).x + moveX, old(modelPosition).y, old(modelPosition).z + moveZ)),
                moveX, moveZ)
    {
      calls := calls + [RotateTowards(cameraYaw, directionOffset + HalfTurn, TurnStep)];
      modelPosition := modelPosition.(x := modelPosition.x + moveX);
      modelPosition := modelPosition.(z := modelPosition.z + moveZ);
      UpdateCameraTarget(moveX, moveZ);
    }

    /** Moves the camera by (moveX, 0, moveZ) and re-anchors the camera target above the character. */
    method UpdateCameraTarget(moveX: real, moveZ: real)
      modifies this
      ensures State() == CameraTargetUpdated(old(State()), moveX, moveZ)
      ensures Anchored(State())
      ensures old(Valid()) ==> Valid()
    {
      cameraPosition := cameraPosition.(x := cameraPosition.x + moveX);
      cameraPosition := cameraPosition.(z := cameraPosition.z + moveZ);

      cameraTarget := Vec3(modelPosition.x, modelPosition.y + TargetHeight, modelPosition.z);
      orbitTarget := cameraTarget;
    }
  }
}
