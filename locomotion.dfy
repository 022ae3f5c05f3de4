/** The locomotion controller's state and one frame of it, as values.

    `Step` is what one call of `update` does to the controller's state; the class
    `CharacterControls.Controls` is proved to follow it, and the lemmas here state
    what the controller promises about it.
 */
module Locomotion {
  import opened Directions

  /** The three animation actions, keyed by name in the source ("Idle", "Walk", "Run"). */
  datatype Action = Idle | Walk | Run

  datatype Option<T> = None | Some(value: T)

  /** An opaque handle of an animation clip (an engine animation action). */
  type Clip = nat

  datatype Vec3 = Vec3(x: real, y: real, z: real)

  /** The calls the controller makes on the animation engine and on the character, in order. */
  datatype EngineCall =
    | Play(clip: Clip)
    | Reset(clip: Clip)
    | FadeIn(clip: Clip, duration: real)
    | FadeOut(clip: Clip, duration: real)
    | MixerUpdate(delta: real)
      /** Turn the character a step of `step` toward yaw `cameraYaw + octants * pi/4`. */
    | RotateTowards(cameraYaw: real, octants: int, step: real)

  const FadeDuration: real := 0.2
  const RunVelocity: real := 5.0
  const WalkVelocity: real := 2.0
  const TurnStep: real := 0.2
  /** Height of the camera target above the character's origin. */
  const TargetHeight: real := 1.0
  /** Half a turn, pi, in octants. */
  const HalfTurn: int := 4

  /** The clip map, as its entries in insertion order (the iteration order of a JavaScript Map). */
  type AnimationsMap = seq<(Action, Clip)>

  predicate DistinctKeys(m: AnimationsMap) {
    forall i, j :: 0 <= i < j < |m| ==> m[i].0 != m[j].0
  }

  predicate HasKey(m: AnimationsMap, a: Action) {
    exists i :: 0 <= i < |m| && m[i].0 == a
  }

  /** A clip for each of the three actions: `update` looks up both actions of a transition. */
  predicate Complete(m: AnimationsMap) {
    HasKey(m, Idle) && HasKey(m, Walk) && HasKey(m, Run)
  }

  /** `animationsMap.get(a)`: the clip of the first entry keyed by `a`. */
  function Get(m: AnimationsMap, a: Action): (c: Clip)
    requires HasKey(m, a)
    ensures exists i :: 0 <= i < |m| && m[i] == (a, c)
  {
    if m[0].0 == a then m[0].1
    else
      assert forall i :: 1 <= i < |m| ==> m[i] == m[1..][i - 1];
      assert exists i :: 0 <= i < |m[1..]| && m[1..][i].0 == a by {
        var i :| 0 <= i < |m| && m[i].0 == a;
        assert m[1..][i - 1].0 == a;
      }
      Get(m[1..], a)
  }

  /** The calls made by the constructor's walk over the clip map: `play()` on every clip keyed by `a`. */
  function StartCalls(m: AnimationsMap, a: Action): (r: seq<EngineCall>)
    ensures |r| <= |m|
    ensures forall c :: c in r ==> c.Play? && (a, c.clip) in m
  {
    if m == [] then []
    else
      var last := m[|m| - 1];
      StartCalls(m[..|m| - 1], a) + (if last.0 == a then [Play(last.1)] else [])
  }

  /** The controller's state: its own fields and the positions of the objects it moves. */
  datatype State = State(
    toggleRun: bool,
    currentAction: Action,
    modelPosition: Vec3,
    cameraPosition: Vec3,
    cameraTarget: Vec3,
    orbitTarget: Vec3,
    calls: seq<EngineCall>)

  /** The inputs of one frame. `cameraYaw` is the engine's atan2 of the camera's offset from the
      character; `walkDirection` is the camera's forward direction, flattened, normalised and turned
      by the direction offset by the engine. Only its x and z are used. */
  datatype Frame = Frame(delta: real, keys: KeysPressed, cameraYaw: real, walkDirection: Vec3)

  /** The point the camera orbits: one unit above the character. */
  function Anchor(p: Vec3): (r: Vec3)
    ensures r.x == p.x && r.z == p.z && r.y - p.y == TargetHeight
  {
    Vec3(p.x, p.y + TargetHeight, p.z)
  }

  /** The camera looks at the point above the character, and the orbit control targets it. */
  predicate Anchored(s: State) {
    s.cameraTarget == Anchor(s.modelPosition) && s.orbitTarget == s.cameraTarget
  }

  /** `updateCameraTarget(moveX, moveZ)`. */
  function CameraTargetUpdated(s: State, moveX: real, moveZ: real): (r: State)
    ensures Anchored(r)
    ensures r.cameraPosition.x - s.cameraPosition.x == moveX && r.cameraPosition.z - s.cameraPosition.z == moveZ
    ensures r.cameraPosition.y == s.cameraPosition.y
    ensures r.toggleRun == s.toggleRun && r.currentAction == s.currentAction
    ensures r.modelPosition == s.modelPosition && r.calls == s.calls
  {
    s.(cameraPosition := Vec3(s.cameraPosition.x + moveX, s.cameraPosition.y, s.cameraPosition.z + moveZ),
       cameraTarget := Anchor(s.modelPosition),
       orbitTarget := Anchor(s.modelPosition))
  }

  /** The state right after construction. */
  function Initial(m: AnimationsMap, modelPosition: Vec3, cameraPosition: Vec3, a: Action): (r: State)
    ensures r.toggleRun && r.currentAction == a
    ensures r.modelPosition == modelPosition && r.cameraPosition == cameraPosition
    ensures Anchored(r)
  {
    var s := State(true, a, modelPosition, cameraPosition, Vec3(0.0, 0.0, 0.0), Vec3(0.0, 0.0, 0.0), StartCalls(m, a));
    CameraTargetUpdated(s, 0.0, 0.0)
  }

  /** `switchRunToggle()`. */
  function Toggled(s: State): (r: State)
    ensures r.toggleRun == !s.toggleRun
    ensures r.(toggleRun := s.toggleRun) == s
  {
    s.(toggleRun := !s.toggleRun)
  }

  /** The action `update` picks from "a movement key is held" and the run toggle. */
  function SelectAction(directionPressed: bool, toggleRun: bool): (r: Action)
    ensures r == Idle <==> !directionPressed
    ensures r == Run <==> directionPressed && toggleRun
    ensures r == Walk <==> directionPressed && !toggleRun
  {
    if directionPressed && toggleRun then Run
    else if directionPressed then Walk
    else Idle
  }

  /** The cross-fade calls of a change of action; none when the action stays. */
  function Transition(m: AnimationsMap, from: Action, to: Action): (r: seq<EngineCall>)
    requires Complete(m)
    ensures r == [] <==> from == to
  {
    if from == to then []
    else [FadeOut(Get(m, from), FadeDuration), Reset(Get(m, to)), FadeIn(Get(m, to), FadeDuration), Play(Get(m, to))]
  }

  /** The speed an action moves the character with: 5 running, 2 walking, 0 idle. */
  function Speed(a: Action): (r: real)
    ensures r == 0.0 <==> a == Idle
    ensures a != Idle ==> r == (if a == Run then RunVelocity else WalkVelocity)
  {
    match a
    case Idle => 0.0
    case Walk => WalkVelocity
    case Run => RunVelocity
  }

  /** One call of `update(delta, keysPressed)`. */
  function Step(m: AnimationsMap, s: State, f: Frame): (r: State)
    requires Complete(m)
    ensures r.currentAction == SelectAction(DirectionPressed(f.keys), s.toggleRun)
    ensures r.toggleRun == s.toggleRun
    ensures s.calls <= r.calls
    ensures r.modelPosition.y == s.modelPosition.y
  {
    var play := SelectAction(DirectionPressed(f.keys), s.toggleRun);
    var s1 := s.(currentAction := play,
                 calls := s.calls + Transition(m, s.currentAction, play) + FrameCalls(f, play));
    if play == Run || play == Walk then
      var moveX := f.walkDirection.x * Speed(play) * f.delta;
      var moveZ := f.walkDirection.z * Speed(play) * f.delta;
      var s2 := s1.(modelPosition := Vec3(s.modelPosition.x + moveX, s.modelPosition.y, s.modelPosition.z + moveZ));
      CameraTargetUpdated(s2, moveX, moveZ)
    else
      s1
  }

  // ---------------------------------------------------------------------------------------------
  // Reading the call log.

  datatype Fade = In | Out

  predicate IsFade(c: EngineCall, f: Fade) {
    match f
    case In => c.FadeIn?
    case Out => c.FadeOut?
  }

  /** The clips faded in (or out) by the calls, with multiplicity. */
  function Faded(calls: seq<EngineCall>, f: Fade): multiset<Clip> {
    if calls == [] then multiset{}
    else
      var last := calls[|calls| - 1];
      Faded(calls[..|calls| - 1], f) + (if IsFade(last, f) then multiset{last.clip} else multiset{})
  }

  /** The clip most recently started with `play()`. */
  function LastPlayed(calls: seq<EngineCall>): Option<Clip> {
    if calls == [] then None
    else if calls[|calls| - 1].Play? then Some(calls[|calls| - 1].clip)
    else LastPlayed(calls[..|calls| - 1])
  }

  /** The clip of the current action is the one most recently started. */
  predicate CurrentIsPlaying(m: AnimationsMap, s: State)
    requires Complete(m)
  {
    LastPlayed(s.calls) == Some(Get(m, s.currentAction))
  }

  /** The calls a step appends to the log. */
  function Issued(m: AnimationsMap, s: State, f: Frame): seq<EngineCall>
    requires Complete(m)
  {
    var calls := Step(m, s, f).calls;
    if |s.calls| <= |calls| then calls[|s.calls|..] else []
  }

  /** What a step calls besides the cross-fade: the mixer advance, then the turn when moving. */
  function FrameCalls(f: Frame, play: Action): (r: seq<EngineCall>)
    ensures |r| > 0 && r[0] == MixerUpdate(f.delta)
    ensures forall c :: c in r ==> c.MixerUpdate? || c.RotateTowards?
    ensures RotateTowards(f.cameraYaw, DirectionOffset(f.keys) + HalfTurn, TurnStep) in r <==> play != Idle
  {
    [MixerUpdate(f.delta)] +
    (if play == Run || play == Walk then [RotateTowards(f.cameraYaw, DirectionOffset(f.keys) + HalfTurn, TurnStep)] else [])
  }

  // ---------------------------------------------------------------------------------------------
  // Lemmas.

  lemma {:induction false} FadedAppend(a: seq<EngineCall>, b: seq<EngineCall>, f: Fade)
    ensures Faded(a + b, f) == Faded(a, f) + Faded(b, f)
    decreases |b|
  {
    if b != [] {
      var b' := b[..|b| - 1];
      assert (a + b)[..|a + b| - 1] == a + b';
      FadedAppend(a, b', f);
    } else {
      assert a + b == a;
    }
  }

  lemma {:induction false} LastPlayedAppend(a: seq<EngineCall>, b: seq<EngineCall>)
    ensures LastPlayed(a + b) == if LastPlayed(b).Some? then LastPlayed(b) else LastPlayed(a)
    decreases |b|
  {
    if b != [] {
      var b' := b[..|b| - 1];
      assert (a + b)[..|a + b| - 1] == a + b';
      LastPlayedAppend(a, b');
    } else {
      assert a + b == a;
    }
  }

  /** Calls that neither fade nor start a clip leave both readings of the log empty. */
  lemma {:induction false} QuietCalls(calls: seq<EngineCall>)
    requires forall c :: c in calls ==> !c.FadeIn? && !c.FadeOut? && !c.Play?
    ensures Faded(calls, In) == multiset{} && Faded(calls, Out) == multiset{}
    ensures LastPlayed(calls) == None
    decreases |calls|
  {
    if calls != [] {
      var init := calls[..|calls| - 1];
      assert forall c :: c in init ==> c in calls;
      QuietCalls(init);
    }
  }

  lemma FadedOne(c: EngineCall, f: Fade)
    ensures Faded([c], f) == if IsFade(c, f) then multiset{c.clip} else multiset{}
  {
    assert [c][..0] == [];
  }

  /** Walking over a map with distinct keys, the constructor starts exactly the clip of the initial
      action, once, and nothing when no clip is keyed by it. */
  lemma {:induction false} StartPlaysInitial(m: AnimationsMap, a: Action)
    requires DistinctKeys(m)
    ensures HasKey(m, a) ==> StartCalls(m, a) == [Play(Get(m, a))]
    ensures !HasKey(m, a) ==> StartCalls(m, a) == []
  {
    if m != [] {
      var init := m[..|m| - 1];
      var last := m[|m| - 1];
      assert forall i :: 0 <= i < |init| ==> init[i] == m[i];
      StartPlaysInitial(init, a);
      if last.0 == a {
        assert !HasKey(init, a);
        assert m[|m| - 1] == (a, last.1);
      } else if HasKey(m, a) {
        var i :| 0 <= i < |m| && m[i].0 == a;
        assert i < |init| && init[i].0 == a;
        var j :| 0 <= j < |init| && init[j] == (a, Get(init, a));
        var k :| 0 <= k < |m| && m[k] == (a, Get(m, a));
        assert k < |init| && j == k;
      } else {
        forall i | 0 <= i < |init| ensures init[i].0 != a {
          assert init[i] == m[i];
        }
      }
    }
  }

  /** The selected action is Idle exactly when no movement key is held; otherwise the run toggle
      alone decides between Run and Walk. */
  lemma SelectionCases(keys: KeysPressed, toggleRun: bool)
    ensures SelectAction(DirectionPressed(keys), toggleRun) == Idle <==>
            !(Held(keys, W) || Held(keys, A) || Held(keys, S) || Held(keys, D))
    ensures SelectAction(DirectionPressed(keys), toggleRun) == Run <==> DirectionPressed(keys) && toggleRun
    ensures SelectAction(DirectionPressed(keys), toggleRun) == Walk <==> DirectionPressed(keys) && !toggleRun
  {
    PressedIffHeading(keys);
  }

  /** `Step` unfolded into the statements of `Controls.Update`: the cross-fade, the mixer advance,
      then the turn and the move when not idle. It serves only as that unfolding step. */
  lemma StepShape(m: AnimationsMap, s: State, f: Frame, play: Action, moveX: real, moveZ: real)
    requires Complete(m) && play == SelectAction(DirectionPressed(f.keys), s.toggleRun)
    requires moveX == f.walkDirection.x * Speed(play) * f.delta && moveZ == f.walkDirection.z * Speed(play) * f.delta
    ensures var afterFade := s.(currentAction := play,
                                calls := s.calls + Transition(m, s.currentAction, play) + [MixerUpdate(f.delta)]);
            Step(m, s, f) ==
              if play == Idle then afterFade
              else CameraTargetUpdated(
                     afterFade.(calls := afterFade.calls + [RotateTowards(f.cameraYaw, DirectionOffset(f.keys) + HalfTurn, TurnStep)],
                                modelPosition := Vec3(s.modelPosition.x + moveX, s.modelPosition.y, s.modelPosition.z + moveZ)),
                     moveX, moveZ)
  {
    var head := s.calls + Transition(m, s.currentAction, play);
    if play == Idle {
      assert head + FrameCalls(f, play) == head + [MixerUpdate(f.delta)];
    } else {
      var turn := RotateTowards(f.cameraYaw, DirectionOffset(f.keys) + HalfTurn, TurnStep);
      assert head + FrameCalls(f, play) == head + [MixerUpdate(f.delta)] + [turn];
    }
  }

  /** After a step the current action is the selected one, whatever the action was before. */
  lemma StepSelects(m: AnimationsMap, s: State, f: Frame)
    requires Complete(m)
    ensures Step(m, s, f).currentAction == SelectAction(DirectionPressed(f.keys), s.toggleRun)
    ensures Step(m, s, f).toggleRun == s.toggleRun
  {
  }

  /** A step only appends to the call log; it ends with the mixer advance, then the turn when moving. */
  lemma {:induction false} StepAppends(m: AnimationsMap, s: State, f: Frame)
    requires Complete(m)
    ensures s.calls <= Step(m, s, f).calls
    ensures Step(m, s, f).calls == s.calls + Issued(m, s, f)
    ensures var play := Step(m, s, f).currentAction;
            Issued(m, s, f) == Transition(m, s.currentAction, play) + FrameCalls(f, play)
  {
  }

  lemma FrameCallsQuiet(f: Frame, play: Action)
    ensures Faded(FrameCalls(f, play), In) == multiset{} && Faded(FrameCalls(f, play), Out) == multiset{}
    ensures LastPlayed(FrameCalls(f, play)) == None
    ensures forall c :: c in FrameCalls(f, play) ==> !c.FadeIn? && !c.FadeOut? && !c.Reset? && !c.Play?
  {
    QuietCalls(FrameCalls(f, play));
  }

  /** When the action stays, nothing is faded in or out and no clip is restarted. */
  lemma {:induction false} NoFadeWithoutChange(m: AnimationsMap, s: State, f: Frame)
    requires Complete(m)
    requires SelectAction(DirectionPressed(f.keys), s.toggleRun) == s.currentAction
    ensures Faded(Issued(m, s, f), In) == multiset{} && Faded(Issued(m, s, f), Out) == multiset{}
    ensures LastPlayed(Issued(m, s, f)) == None
    ensures forall c :: c in Issued(m, s, f) ==> !c.Reset? && !c.Play?
  {
    StepAppends(m, s, f);
    FrameCallsQuiet(f, s.currentAction);
  }

  /** The cross-fade of a change of action fades out the old clip, resets, fades in and starts the
      new one, both fades over the fade duration, and leaves the new clip as the last one started. */
  lemma {:induction false} TransitionFades(m: AnimationsMap, from: Action, to: Action)
    requires Complete(m) && from != to
    ensures Faded(Transition(m, from, to), Out) == multiset{Get(m, from)}
    ensures Faded(Transition(m, from, to), In) == multiset{Get(m, to)}
    ensures LastPlayed(Transition(m, from, to)) == Some(Get(m, to))
    ensures forall c :: c in Transition(m, from, to) && (c.FadeIn? || c.FadeOut?) ==> c.duration == FadeDuration
    ensures Reset(Get(m, to)) in Transition(m, from, to)
    ensures forall c :: c in Transition(m, from, to) && (c.Play? || c.Reset?) ==> c.clip == Get(m, to)
  {
    var fade := Transition(m, from, to);
    var c0, c1, c2, c3 := fade[0], fade[1], fade[2], fade[3];
    assert fade == [c0] + [c1] + [c2] + [c3];
    forall g: Fade ensures Faded(fade, g) == Faded([c0], g) + Faded([c1], g) + Faded([c2], g) + Faded([c3], g) {
      FadedAppend([c0] + [c1] + [c2], [c3], g);
      FadedAppend([c0] + [c1], [c2], g);
      FadedAppend([c0], [c1], g);
    }
    FadedOne(c0, In); FadedOne(c1, In); FadedOne(c2, In); FadedOne(c3, In);
    FadedOne(c0, Out); FadedOne(c1, Out); FadedOne(c2, Out); FadedOne(c3, Out);
  }

  /** The order of a cross-fade: the old clip is faded out before the new one is reset, and the
      new one is reset before it is faded in and started, and faded in before it is started. */
  lemma {:induction false} TransitionOrder(m: AnimationsMap, from: Action, to: Action)
    requires Complete(m) && from != to
    ensures var t := Transition(m, from, to);
            forall i, j :: 0 <= i < |t| && 0 <= j < |t| && t[i].FadeOut? && t[j].Reset? ==> i < j
    ensures var t := Transition(m, from, to);
            forall i, j :: 0 <= i < |t| && 0 <= j < |t| && t[i].Reset? && (t[j].FadeIn? || t[j].Play?) ==> i < j
    ensures var t := Transition(m, from, to);
            forall i, j :: 0 <= i < |t| && 0 <= j < |t| && t[i].FadeIn? && t[j].Play? ==> i < j
  {
    var t := Transition(m, from, to);
    assert forall i :: 0 <= i < |t| ==>
      (t[i].FadeOut? <==> i == 0) && (t[i].Reset? <==> i == 1) && (t[i].FadeIn? <==> i == 2) && (t[i].Play? <==> i == 3);
  }

  /** On a change of action, exactly the old action's clip is faded out and exactly the new action's
      clip is faded in, both over the fade duration; only the new clip is reset and started, and it is
      the last one started. */
  lemma {:induction false} CrossFadeOnChange(m: AnimationsMap, s: State, f: Frame)
    requires Complete(m)
    requires SelectAction(DirectionPressed(f.keys), s.toggleRun) != s.currentAction
    ensures var play := SelectAction(DirectionPressed(f.keys), s.toggleRun);
            Faded(Issued(m, s, f), Out) == multiset{Get(m, s.currentAction)} &&
            Faded(Issued(m, s, f), In) == multiset{Get(m, play)} &&
            LastPlayed(Issued(m, s, f)) == Some(Get(m, play))
    ensures forall c :: c in Issued(m, s, f) && (c.FadeIn? || c.FadeOut?) ==> c.duration == FadeDuration
    ensures var play := SelectAction(DirectionPressed(f.keys), s.toggleRun);
            Reset(Get(m, play)) in Issued(m, s, f) &&
            forall c :: c in Issued(m, s, f) && (c.Play? || c.Reset?) ==> c.clip == Get(m, play)
  {
    StepAppends(m, s, f);
    var play := SelectAction(DirectionPressed(f.keys), s.toggleRun);
    var fade, rest := Transition(m, s.currentAction, play), FrameCalls(f, play);
    FrameCallsQuiet(f, play);
    TransitionFades(m, s.currentAction, play);
    FadedAppend(fade, rest, In);
    FadedAppend(fade, rest, Out);
    LastPlayedAppend(fade, rest);
  }

  /** The calls of a frame that changes the action keep the cross-fade's order: fade-out, then
      reset, then fade-in, then play. */
  lemma {:induction false} CrossFadeOrder(m: AnimationsMap, s: State, f: Frame)
    requires Complete(m)
    requires SelectAction(DirectionPressed(f.keys), s.toggleRun) != s.currentAction
    ensures var t := Issued(m, s, f);
            forall i, j :: 0 <= i < |t| && 0 <= j < |t| && t[i].FadeOut? && t[j].Reset? ==> i < j
    ensures var t := Issued(m, s, f);
            forall i, j :: 0 <= i < |t| && 0 <= j < |t| && t[i].Reset? && (t[j].FadeIn? || t[j].Play?) ==> i < j
    ensures var t := Issued(m, s, f);
            forall i, j :: 0 <= i < |t| && 0 <= j < |t| && t[i].FadeIn? && t[j].Play? ==> i < j
  {
    StepAppends(m, s, f);
    var play := SelectAction(DirectionPressed(f.keys), s.toggleRun);
    FrameCallsQuiet(f, play);
    TransitionOrder(m, s.currentAction, play);
  }

  /** The clip of the current action is always the one last started: true after construction and
      kept by every step, so a cross-fade always starts from the clip that is really playing. */
  lemma {:induction false} InitialCurrentIsPlaying(m: AnimationsMap, modelPosition: Vec3, cameraPosition: Vec3, a: Action)
    requires Complete(m) && DistinctKeys(m)
    ensures CurrentIsPlaying(m, Initial(m, modelPosition, cameraPosition, a))
  {
    StartPlaysInitial(m, a);
    assert [Play(Get(m, a))][..0] == [];
  }

  /** Construction starts one clip, the initial action's, and makes no other call. */
  lemma {:induction false} InitialStartsOnly(m: AnimationsMap, modelPosition: Vec3, cameraPosition: Vec3, a: Action)
    requires Complete(m) && DistinctKeys(m)
    ensures Initial(m, modelPosition, cameraPosition, a).calls == [Play(Get(m, a))]
  {
    StartPlaysInitial(m, a);
  }

  lemma {:induction false} StepKeepsCurrentPlaying(m: AnimationsMap, s: State, f: Frame)
    requires Complete(m) && CurrentIsPlaying(m, s)
    ensures CurrentIsPlaying(m, Step(m, s, f))
  {
    StepAppends(m, s, f);
    LastPlayedAppend(s.calls, Issued(m, s, f));
    if SelectAction(DirectionPressed(f.keys), s.toggleRun) == s.currentAction {
      NoFadeWithoutChange(m, s, f);
    } else {
      CrossFadeOnChange(m, s, f);
    }
  }

  /** While idle nothing moves: character, camera and camera target keep their places. */
  lemma IdleStaysPut(m: AnimationsMap, s: State, f: Frame)
    requires Complete(m)
    requires !DirectionPressed(f.keys)
    ensures var t := Step(m, s, f);
            t.modelPosition == s.modelPosition && t.cameraPosition == s.cameraPosition &&
            t.cameraTarget == s.cameraTarget && t.orbitTarget == s.orbitTarget
  {
  }

  /** Each step moves the character by speed times delta along the walk direction, in the horizontal
      plane only (Speed(Idle) is 0), and moves the camera by the same amounts. */
  lemma Displacement(m: AnimationsMap, s: State, f: Frame)
    requires Complete(m)
    ensures var t := Step(m, s, f);
            var v := Speed(t.currentAction);
            t.modelPosition == Vec3(s.modelPosition.x + f.walkDirection.x * v * f.delta,
                                    s.modelPosition.y,
                                    s.modelPosition.z + f.walkDirection.z * v * f.delta) &&
            t.cameraPosition.x - s.cameraPosition.x == t.modelPosition.x - s.modelPosition.x &&
            t.cameraPosition.z - s.cameraPosition.z == t.modelPosition.z - s.modelPosition.z &&
            t.cameraPosition.y == s.cameraPosition.y
  {
    var t := Step(m, s, f);
    var v := Speed(t.currentAction);
    if t.currentAction == Idle {
      assert v == 0.0;
      assert f.walkDirection.x * v * f.delta == 0.0 && f.walkDirection.z * v * f.delta == 0.0;
      assert t.modelPosition == s.modelPosition && t.cameraPosition == s.cameraPosition;
    } else {
      var moveX := f.walkDirection.x * v * f.delta;
      var moveZ := f.walkDirection.z * v * f.delta;
      assert t.modelPosition == Vec3(s.modelPosition.x + moveX, s.modelPosition.y, s.modelPosition.z + moveZ);
      assert t.cameraPosition == Vec3(s.cameraPosition.x + moveX, s.cameraPosition.y, s.cameraPosition.z + moveZ);
    }
  }

  /** With no time elapsed, a step moves nothing. */
  lemma {:induction false} ZeroDeltaStill(m: AnimationsMap, s: State, f: Frame)
    requires Complete(m) && f.delta == 0.0 && Anchored(s)
    ensures Step(m, s, f).modelPosition == s.modelPosition
    ensures Step(m, s, f).cameraPosition == s.cameraPosition
    ensures Anchored(Step(m, s, f)) && Step(m, s, f).cameraTarget == s.cameraTarget
  {
    Displacement(m, s, f);
  }

  /** A step with a movement key held turns the character towards the camera's yaw plus the
      offset plus half a turn, by the fixed step. */
  lemma {:induction false} MovingStepTurns(m: AnimationsMap, s: State, f: Frame)
    requires Complete(m) && DirectionPressed(f.keys)
    ensures RotateTowards(f.cameraYaw, DirectionOffset(f.keys) + HalfTurn, TurnStep) in Issued(m, s, f)
  {
    var play := SelectAction(DirectionPressed(f.keys), s.toggleRun);
    var turn := RotateTowards(f.cameraYaw, DirectionOffset(f.keys) + HalfTurn, TurnStep);
    var fade, rest := Transition(m, s.currentAction, play), FrameCalls(f, play);
    assert rest == [MixerUpdate(f.delta), turn] by {
      assert play != Idle;
    }
    assert Issued(m, s, f) == fade + rest by {
      StepAppends(m, s, f);
    }
    assert (fade + rest)[|fade| + 1] == turn;
  }

  /** The turn does not depend on the elapsed time: a step in which no time has passed turns the
      character just as far as any other. */
  lemma {:induction false} TurnIgnoresDelta(m: AnimationsMap, s: State, f: Frame)
    requires Complete(m) && DirectionPressed(f.keys)
    ensures RotateTowards(f.cameraYaw, DirectionOffset(f.keys) + HalfTurn, TurnStep) in Issued(m, s, f)
    ensures RotateTowards(f.cameraYaw, DirectionOffset(f.keys) + HalfTurn, TurnStep) in Issued(m, s, f.(delta := 0.0))
  {
    MovingStepTurns(m, s, f);
    MovingStepTurns(m, s, f.(delta := 0.0));
  }

  /** After construction and after every step the camera target sits one unit above the character
      and is the orbit control's target; a moving step re-anchors it whatever it was before. */
  lemma InitialAnchored(m: AnimationsMap, modelPosition: Vec3, cameraPosition: Vec3, a: Action)
    ensures Anchored(Initial(m, modelPosition, cameraPosition, a))
    ensures Initial(m, modelPosition, cameraPosition, a).cameraPosition == cameraPosition
    ensures Initial(m, modelPosition, cameraPosition, a).modelPosition == modelPosition
  {
  }

  lemma StepAnchors(m: AnimationsMap, s: State, f: Frame)
    requires Complete(m)
    ensures DirectionPressed(f.keys) ==> Anchored(Step(m, s, f))
    ensures Anchored(s) ==> Anchored(Step(m, s, f))
  {
  }

  /** Toggling twice restores the state; toggling alone changes nothing but the toggle. */
  lemma ToggleTwice(s: State)
    ensures Toggled(Toggled(s)) == s
    ensures Toggled(s).toggleRun != s.toggleRun
  {
  }

  /** Starting from Idle (the run toggle starts on) and holding W for one frame runs forward at the
      run velocity; toggling first makes the same frame walk at the walk velocity. */
  lemma StartRunningOrWalking(m: AnimationsMap, modelPosition: Vec3, cameraPosition: Vec3, f: Frame)
    requires Complete(m) && DistinctKeys(m)
    requires f.keys == map[W := true]
    ensures var t := Step(m, Initial(m, modelPosition, cameraPosition, Idle), f);
            t.currentAction == Run &&
            t.modelPosition.x == modelPosition.x + f.walkDirection.x * RunVelocity * f.delta &&
            Faded(Issued(m, Initial(m, modelPosition, cameraPosition, Idle), f), Out) == multiset{Get(m, Idle)}
    ensures var t := Step(m, Toggled(Initial(m, modelPosition, cameraPosition, Idle)), f);
            t.currentAction == Walk &&
            t.modelPosition.x == modelPosition.x + f.walkDirection.x * WalkVelocity * f.delta
  {
    var s := Initial(m, modelPosition, cameraPosition, Idle);
    PressedIffHeading(f.keys);
    assert Faded(Issued(m, s, f), Out) == multiset{Get(m, Idle)} by {
      CrossFadeOnChange(m, s, f);
    }
    assert Step(m, s, f).currentAction == Run &&
           Step(m, s, f).modelPosition.x == modelPosition.x + f.walkDirection.x * RunVelocity * f.delta by {
      Displacement(m, s, f);
    }
    assert Step(m, Toggled(s), f).currentAction == Walk &&
           Step(m, Toggled(s), f).modelPosition.x == modelPosition.x + f.walkDirection.x * WalkVelocity * f.delta by {
      Displacement(m, Toggled(s), f);
    }
  }
}
