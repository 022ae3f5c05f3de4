/** Movement keys and the eight-way direction offset of the locomotion controller.

    The source works with radians; every offset it returns is a multiple of pi/4,
    so here an offset is the integer number k of octants, standing for k * pi/4.
    Positive octants turn to the left (counter-clockwise seen from above).
 */
module Directions {

  /** The key latch: key name to "currently held". A key that is absent is not held. */
  type KeysPressed = map<string, bool>

  // The four movement keys. They are defined in ./utils, which is not part of this model;
  // the controller only needs them to be four distinct names.
  const W: string := "w"
  const A: string := "a"
  const S: string := "s"
  const D: string := "d"
  const DIRECTIONS: seq<string> := [W, A, S, D]

  predicate Held(keys: KeysPressed, k: string) {
    k in keys && keys[k]
  }

  /** `dirs.some(key => keysPressed[key] == true)`: some key of `dirs` is held. */
  function AnyHeld(keys: KeysPressed, dirs: seq<string>): (r: bool)
    ensures r <==> exists i :: 0 <= i < |dirs| && Held(keys, dirs[i])
  {
    if dirs == [] then false
    else if Held(keys, dirs[0]) then true
    else
      var rest := AnyHeld(keys, dirs[1..]);
      assert forall i :: 1 <= i < |dirs| ==> dirs[i] == dirs[1..][i - 1];
      rest
  }

  /** Is any of the four movement keys held? */
  function DirectionPressed(keys: KeysPressed): (r: bool)
    ensures r <==> Held(keys, W) || Held(keys, A) || Held(keys, S) || Held(keys, D)
  {
    var r := AnyHeld(keys, DIRECTIONS);
    assert Held(keys, W) ==> Held(keys, DIRECTIONS[0]);
    assert Held(keys, A) ==> Held(keys, DIRECTIONS[1]);
    assert Held(keys, S) ==> Held(keys, DIRECTIONS[2]);
    assert Held(keys, D) ==> Held(keys, DIRECTIONS[3]);
    assert forall i :: 0 <= i < |DIRECTIONS| ==> DIRECTIONS[i] in {W, A, S, D};
    r
  }

  /** The offset, in octants, that the held keys add to the camera's yaw.
      W is tested before S and A before D, so W wins over S and A over D. */
  function DirectionOffset(keys: KeysPressed): (k: int)
    ensures -3 <= k <= 4
  {
    if Held(keys, W) then
      if Held(keys, A) then 1
      else if Held(keys, D) then -1
      else 0
    else if Held(keys, S) then
      if Held(keys, A) then 3
      else if Held(keys, D) then -3
      else 4
    else if Held(keys, A) then 2
    else if Held(keys, D) then -2
    else 0
  }

  /** A direction on the lattice of eight neighbours, as (forward, left) components in -1..1. */
  datatype Heading = Heading(forward: int, left: int)

  const Ahead := Heading(1, 0)
  const Nowhere := Heading(0, 0)

  function Sign(x: int): int {
    if x > 0 then 1 else if x < 0 then -1 else 0
  }

  /** One octant to the left on the lattice. */
  function TurnLeft(h: Heading): Heading {
    Heading(Sign(h.forward - h.left), Sign(h.forward + h.left))
  }

  /** One octant to the right on the lattice. */
  function TurnRight(h: Heading): Heading {
    Heading(Sign(h.forward + h.left), Sign(h.left - h.forward))
  }

  /** The heading reached from straight ahead by turning k octants (left when k > 0). */
  function Facing(k: int): Heading
    decreases if k < 0 then -k else k
  {
    if k == 0 then Ahead
    else if k > 0 then TurnLeft(Facing(k - 1))
    else TurnRight(Facing(k + 1))
  }

  /** Where the held keys point: W ahead (winning over S), A left (winning over D). */
  function KeyHeading(keys: KeysPressed): Heading {
    Heading(if Held(keys, W) then 1 else if Held(keys, S) then -1 else 0,
            if Held(keys, A) then 1 else if Held(keys, D) then -1 else 0)
  }

  /** The lattice heading of each octant in -3..4. */
  lemma {:induction false} FacingTable()
    ensures Facing(-3) == Heading(-1, -1) && Facing(-2) == Heading(0, -1) && Facing(-1) == Heading(1, -1)
    ensures Facing(0) == Heading(1, 0) && Facing(1) == Heading(1, 1) && Facing(2) == Heading(0, 1)
    ensures Facing(3) == Heading(-1, 1) && Facing(4) == Heading(-1, 0)
  {
    assert Facing(1) == TurnLeft(Facing(0)) == Heading(1, 1);
    assert Facing(2) == TurnLeft(Facing(1)) == Heading(0, 1);
    assert Facing(3) == TurnLeft(Facing(2)) == Heading(-1, 1);
    assert Facing(4) == TurnLeft(Facing(3)) == Heading(-1, 0);
    assert Facing(-1) == TurnRight(Facing(0)) == Heading(1, -1);
    assert Facing(-2) == TurnRight(Facing(-1)) == Heading(0, -1);
    assert Facing(-3) == TurnRight(Facing(-2)) == Heading(-1, -1);
  }

  /** A movement key is held exactly when the keys point somewhere. */
  lemma {:induction false} PressedIffHeading(keys: KeysPressed)
    ensures DirectionPressed(keys) <==> KeyHeading(keys) != Nowhere
  {
    if Held(keys, W) || Held(keys, A) || Held(keys, S) || Held(keys, D) {
      if Held(keys, W) { assert Held(keys, DIRECTIONS[0]); }
      else if Held(keys, A) { assert Held(keys, DIRECTIONS[1]); }
      else if Held(keys, S) { assert Held(keys, DIRECTIONS[2]); }
      else { assert Held(keys, DIRECTIONS[3]); }
    } else {
      forall i | 0 <= i < |DIRECTIONS| ensures !Held(keys, DIRECTIONS[i]) {
        assert DIRECTIONS[i] in {W, A, S, D};
      }
    }
  }

  /** The offset turns the character to face where the keys point; with no key held it is 0. */
  lemma {:induction false} OffsetFacesKeys(keys: KeysPressed)
    ensures KeyHeading(keys) != Nowhere ==> Facing(DirectionOffset(keys)) == KeyHeading(keys)
    ensures KeyHeading(keys) == Nowhere ==> DirectionOffset(keys) == 0
  {
    FacingTable();
  }

  /** No other octant in -3..4 faces where the keys point, so the offset is the only choice. */
  lemma {:induction false} OffsetUnique(keys: KeysPressed, k: int)
    requires -3 <= k <= 4 && KeyHeading(keys) != Nowhere
    ensures Facing(k) == KeyHeading(keys) <==> k == DirectionOffset(keys)
  {
    FacingTable();
    OffsetFacesKeys(keys);
  }

  /** The eight entries of the offset table, in octants. */
  lemma OffsetTable()
    ensures DirectionOffset(map[]) == 0
    ensures DirectionOffset(map[W := true]) == 0
    ensures DirectionOffset(map[W := true, A := true]) == 1
    ensures DirectionOffset(map[W := true, D := true]) == -1
    ensures DirectionOffset(map[S := true]) == 4
    ensures DirectionOffset(map[S := true, A := true]) == 3
    ensures DirectionOffset(map[S := true, D := true]) == -3
    ensures DirectionOffset(map[A := true]) == 2
    ensures DirectionOffset(map[D := true]) == -2
    ensures DirectionOffset(map[W := true, S := true, A := true]) == 1
  {
  }

  /** W wins over S, and A wins over D: pressing the loser as well changes nothing. */
  lemma Precedence(keys: KeysPressed)
    ensures Held(keys, W) ==> DirectionOffset(keys[S := true]) == DirectionOffset(keys)
    ensures Held(keys, A) ==> DirectionOffset(keys[D := true]) == DirectionOffset(keys)
  {
  }
}
