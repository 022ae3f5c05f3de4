# Character locomotion controller

A model of `CharacterControls`, the keyboard-driven locomotion controller of a browser 3D scene.
Each frame the controller picks one of three animation actions (Idle, Walk, Run) from the held
movement keys and a run toggle. It cross-fades the animation clips when the action changes,
advances the animation mixer and, while walking or running, turns the character and moves it and
the camera in the horizontal plane. It then re-anchors the camera target one unit above the
character.

The project has three modules:

- `Directions` (`directions.dfy`): the key latch, "is a movement key held" (`DIRECTIONS.some`)
  and `directionOffset`. The offset is a count of octants k, standing for k·π/4 radians. A
  reference definition checks it: `Facing(k)` turns "straight ahead" by k octants on the
  eight-neighbour lattice, and `KeyHeading` is where the held keys point.
- `Locomotion` (`locomotion.dfy`): the controller's state as a value, and `Step`, one call of
  `update`. Calls on the engine (`play`, `reset`, `fadeIn`, `fadeOut`, `mixer.update`,
  `quaternion.rotateTowards`) are kept as an ordered call log. This module also holds the lemmas
  about all of this.
- `CharacterControls` (`character_controls.dfy`): class `Controls` with the source's fields and
  methods. The constructor walks the clip map with a loop as the source's `forEach` does, and
  leaves `State()` equal to `Initial` of its arguments. `SwitchRunToggle`, `Update` and
  `UpdateCameraTarget` each leave `State()` equal to one function of `Locomotion` applied to the
  old state (`Toggled`, `Step`, `CameraTargetUpdated`). `Update` does its work through two helper
  methods, `CrossFade` (the change of clip) and `TurnAndMove` (the turn and the move); each of
  them is specified as an update of the old state built from `Transition` and
  `CameraTargetUpdated`. The constructor establishes the invariant `Valid()`, `SwitchRunToggle`
  and `Update` require and keep it, and `UpdateCameraTarget` keeps it whenever it held before the
  call.

## Model

| member | source | states |
|---|---|---|
| Directions.AnyHeld | src/character/characterControls.js:53 | `some` over a key list is true exactly when some key of the list is held |
| Directions.DirectionPressed | src/character/characterControls.js:53 | a movement key is pressed exactly when W, A, S or D is held |
| Directions.PressedIffHeading | src/character/characterControls.js:53 | a movement key is pressed exactly when the held keys point in some direction (`KeyHeading` is not `Nowhere`) |
| Directions.DirectionOffset | src/character/characterControls.js:123-147 | the offset, in octants of π/4, always lies in -3..4 |
| Directions.OffsetFacesKeys | src/character/characterControls.js:123-147 | turning straight ahead by the offset faces where the held keys point (W ahead over S, A left over D); with no key held the offset is 0 |
| Directions.OffsetUnique | src/character/characterControls.js:123-147 | no other octant in -3..4 faces where the keys point, in both directions of the equivalence |
| Directions.OffsetTable | src/character/characterControls.js:124-144 | the table: none or W 0, W+A 1, W+D -1, S 4, S+A 3, S+D -3, A 2, D -2; W+S+A gives 1 |
| Directions.Precedence | src/character/characterControls.js:126-144 | with W held, also holding S changes nothing; with A held, also holding D changes nothing |
| Locomotion.Get | src/character/characterControls.js:65-66 | a lookup in the clip map returns the clip of an entry keyed by the action |
| Locomotion.StartCalls | src/character/characterControls.js:38-42 | the constructor's walk over the clip map only calls `play()`, once at most per entry, and only on clips keyed by the initial action |
| Locomotion.Anchor | src/character/characterControls.js:117-119 | the camera target has the character's x and z and lies one unit above it |
| Locomotion.Initial | src/character/characterControls.js:26-46 | the constructed state has the run toggle on, the given current action and positions, and the camera target anchored above the character |
| Locomotion.Toggled | src/character/characterControls.js:48-50 | the run toggle is negated and every other part of the state is unchanged |
| Locomotion.SelectAction | src/character/characterControls.js:55-62 | the picked action is Idle exactly when no key is pressed, Run exactly when a key is pressed with the toggle on, Walk exactly when a key is pressed with the toggle off |
| Locomotion.Transition | src/character/characterControls.js:64-72 | the cross-fade issues calls exactly when the action changes |
| Locomotion.Speed | src/character/characterControls.js:99-100 | running moves at `runVelocity` 5 and walking at `walkVelocity` 2 (lines 23-24); the speed is 0 exactly when idle. The idle case has no counterpart in the source, which never moves while idle; `Speed(Idle) == 0.0` is a modelling convenience that lets `Step` and `Displacement` state one formula for every action |
| Locomotion.FrameCalls | src/character/characterControls.js:74-90 | after the cross-fade, a frame first advances the mixer by delta and then makes only turn calls; the turn towards the camera yaw plus the offset plus half a turn, by 0.2, is among them exactly when walking or running |
| Locomotion.Step | src/character/characterControls.js:52-109 | `update` makes the selected action current, keeps the run toggle and the character's height, and only appends to the call log |
| Locomotion.CameraTargetUpdated | src/character/characterControls.js:111-121 | the camera moves horizontally by exactly (moveX, moveZ), the target is anchored one unit above the character and is the orbit target, and nothing else changes |
| Locomotion.StartPlaysInitial | src/character/characterControls.js:38-42 | the constructor's walk over a map with distinct keys starts exactly the clip keyed by the initial action, once, and nothing if there is none |
| Locomotion.SelectionCases | src/character/characterControls.js:53-62 | the selected action is Idle exactly when no movement key is held, Run exactly when one is held and the toggle is on, Walk exactly when one is held and the toggle is off |
| Locomotion.StepSelects | src/character/characterControls.js:55-71 | after `update` the current action is the selected one, whatever it was before, and the toggle is unchanged |
| Locomotion.StepAppends | src/character/characterControls.js:64-90 | `update` only appends to the call log: the cross-fade, then the mixer advance, then the turn when moving |
| Locomotion.NoFadeWithoutChange | src/character/characterControls.js:64-72 | when the selected action is the current one, no clip is faded in, faded out, reset or started |
| Locomotion.TransitionFades | src/character/characterControls.js:65-69 | a cross-fade fades out the old clip and fades in the new one, both over 0.2, resets the new one and starts it last; every clip it resets or starts is the new one |
| Locomotion.TransitionOrder | src/character/characterControls.js:68-69 | in a cross-fade the fade-out comes before the reset, the reset before the fade-in and the play, and the fade-in before the play |
| Locomotion.CrossFadeOnChange | src/character/characterControls.js:64-74 | on a change of action exactly the old action's clip is faded out and exactly the new action's clip faded in, both over 0.2; the new clip is reset and is the last started, and no other clip is reset or started |
| Locomotion.CrossFadeOrder | src/character/characterControls.js:64-74 | in the calls of a frame that changes the action, the fade-out comes before the reset, the reset before the fade-in and the play, and the fade-in before the play |
| Locomotion.InitialCurrentIsPlaying | src/character/characterControls.js:37-42 | after construction the clip of the current action is the one last started |
| Locomotion.InitialStartsOnly | src/character/characterControls.js:37-42 | after construction the call log is exactly one `play()` of the initial action's clip |
| Locomotion.StepKeepsCurrentPlaying | src/character/characterControls.js:64-72 | every `update` keeps the clip of the current action as the last started, so a fade-out always hits the clip really playing |
| Locomotion.IdleStaysPut | src/character/characterControls.js:76-108 | with no movement key held, character, camera and camera target do not move |
| Locomotion.Displacement | src/character/characterControls.js:99-107 | the character moves by speed × delta along the walk direction (speed 5 running, 2 walking, 0 idle), never vertically, and the camera moves by the same horizontal amounts |
| Locomotion.MovingStepTurns | src/character/characterControls.js:76-90 | a step with a movement key held turns the character towards the camera yaw plus the offset plus half a turn, by the fixed step 0.2 |
| Locomotion.TurnIgnoresDelta | src/character/characterControls.js:86-90 | the same turn is issued whatever the elapsed time, including a frame in which no time has passed |
| Locomotion.ZeroDeltaStill | src/character/characterControls.js:74-121 | with zero elapsed time nothing moves and the camera target stays anchored |
| Locomotion.InitialAnchored | src/character/characterControls.js:26-46 | after construction the camera target is one unit above the character and is the orbit target, and neither the character nor the camera has moved |
| Locomotion.StepAnchors | src/character/characterControls.js:107-121 | a moving `update` leaves the camera target one unit above the character and as the orbit target; every `update` keeps that true |
| Locomotion.ToggleTwice | src/character/characterControls.js:48-50 | toggling flips the run toggle, and toggling twice restores the state |
| Locomotion.StartRunningOrWalking | src/character/characterControls.js:52-107 | from Idle with the toggle on, holding W runs at velocity 5 and fades out the Idle clip; after one toggle the same frame walks at velocity 2 |
| CharacterControls.Controls.constructor | src/character/characterControls.js:26-46 | the new controller is in the initial state (toggle on, initial clip started, target anchored, camera unmoved) and its invariant holds |
| CharacterControls.Controls.SwitchRunToggle | src/character/characterControls.js:48-50 | from a valid controller, negates the run toggle and changes nothing else; the invariant still holds |
| CharacterControls.Controls.Update | src/character/characterControls.js:52-109 | from a valid controller, the new state is `Step` of the old one and the invariant still holds |
| CharacterControls.Controls.CrossFade | src/character/characterControls.js:64-72 | the selected action becomes current and the cross-fade calls of `Transition` are appended to the log; nothing else changes |
| CharacterControls.Controls.TurnAndMove | src/character/characterControls.js:85-107 | logs the turn, moves the character by (moveX, 0, moveZ) and then does what `updateCameraTarget` does |
| CharacterControls.Controls.UpdateCameraTarget | src/character/characterControls.js:111-121 | moves the camera horizontally by the given amounts, puts the target one unit above the character and makes it the orbit target; keeps the invariant when it held before |

## Left out

- Camera yaw: `Math.atan2` of the camera's offset from the character is an input of `Update` (`cameraYaw`). It is not computed from the positions.
- Orientation: `setFromAxisAngle` and `rotateTowards` are kept as one logged call. The call carries the target yaw (camera yaw plus offset plus half a turn, in octants) and the step 0.2. The character's quaternion itself is not modelled.
- Walk direction: `getWorldDirection`, flattening, `normalize` and `applyAxisAngle` are done by the engine. Their result is an input of `Update` (`walkDirection`, of which only x and z are used). The model does not prove it is a unit vector turned by the offset.
- Locomotion.Displacement: states the displacement as speed × delta times the walk direction. It does not state that its length is speed × delta, because the walk direction's length is not modelled.
- `mixer.update(delta)`: logged as a call. Animation time and fade weights inside the engine are not modelled.
- Floating point: positions and durations are `real`, so there is no rounding. Offsets are exact octant counts instead of radians.
- Object sharing: the character, camera and orbit control are engine objects shared by reference. The controller holds their positions as fields. `orbitControl.target = this.cameraTarget` makes the two the same vector; the model keeps them equal by value after every method instead.
- Clip map: the source keys it by strings and accepts any initial action name. The model keys it by the three actions and takes it as its entries in insertion order, with distinct keys as a JavaScript Map has. A map without a clip for some action makes the source fail with a type error at the first cross-fade involving that action. The model instead requires clips for all three actions at construction and in `Update`.
- Key latch: values are booleans, so the source's `== true` test and its truthiness test agree. The key constants W, A, S, D and `DIRECTIONS` come from `./utils`, which is not part of this model; they are taken as four distinct names with `DIRECTIONS` = [W, A, S, D].
- A zero elapsed time still turns the character, in the code: `rotateTowards` uses a fixed step of 0.2 per call, not one scaled by delta. `ZeroDeltaStill` therefore speaks of positions only, and `TurnIgnoresDelta` proves that a frame with no elapsed time still issues the turn.
- No check on delta: a non-positive delta is not rejected, as in the source.
- Scene assembly, rendering loop, asset loading, ghosts, house and lights (`src/app.js`, `src/components/ghosts.js`, `src/components/house.js`, `src/lights.js`) are engine plumbing and are not part of this model.
