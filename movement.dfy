/** The key-priority rule shared by both player snapshots: each axis takes a
    direction from the held arrow keys, and the facing follows the last axis set. */
module Movement {
  import opened Wrappers

  datatype Direction = North | East | South | West

  /** The held-key flags a keyboard event can drive. */
  datatype Flag = Up | Down | Left | Right | Interact

  /** The flag a (lower-cased) key name drives, if any: WASD and the arrow keys
      steer, "e" and the space bar interact. */
  function KeyFlag(key: string): (f: Option<Flag>)
    ensures f == Some(Up) <==> key == "w" || key == "arrowup"
    ensures f == Some(Down) <==> key == "s" || key == "arrowdown"
    ensures f == Some(Left) <==> key == "a" || key == "arrowleft"
    ensures f == Some(Right) <==> key == "d" || key == "arrowright"
    ensures f == Some(Interact) <==> key == "e" || key == " "
  {
    if key == "w" || key == "arrowup" then Some(Up)
    else if key == "s" || key == "arrowdown" then Some(Down)
    else if key == "a" || key == "arrowleft" then Some(Left)
    else if key == "d" || key == "arrowright" then Some(Right)
    else if key == "e" || key == " " then Some(Interact)
    else None
  }

  /** Vertical step sign: up (-1) wins over down (+1). */
  function MoveY(up: bool, down: bool): (m: int)
    ensures m == -1 <==> up
    ensures m == 1 <==> !up && down
    ensures m == 0 <==> !up && !down
  {
    if up then -1 else if down then 1 else 0
  }

  /** Horizontal step sign: left (-1) wins over right (+1). */
  function MoveX(left: bool, right: bool): (m: int)
    ensures m == -1 <==> left
    ensures m == 1 <==> !left && right
    ensures m == 0 <==> !left && !right
  {
    if left then -1 else if right then 1 else 0
  }

  /** The displacement along one axis for a step sign: speed forwards for a
      positive sign, backwards for a negative one, none for 0. */
  function Displacement(speed: real, move: int): (d: real) {
    if move > 0 then speed else if move < 0 then -speed else 0.0
  }

  /** The facing after one frame: the vertical choice is made first and the
      horizontal one overwrites it, so a held horizontal key always decides;
      with no key held the previous facing stays. */
  function Facing(up: bool, down: bool, left: bool, right: bool, previous: Direction): (d: Direction)
    ensures left ==> d == West
    ensures !left && right ==> d == East
    ensures !left && !right && up ==> d == North
    ensures !left && !right && !up && down ==> d == South
    ensures !left && !right && !up && !down ==> d == previous
  {
    var vertical := if up then North else if down then South else previous;
    if left then West else if right then East else vertical
  }

  /** A frame moves exactly when some arrow key is held. */
  lemma MovesIffKeyHeld(up: bool, down: bool, left: bool, right: bool)
    ensures (MoveX(left, right) != 0 || MoveY(up, down) != 0) <==> (up || down || left || right)
  {
  }
}
