/** Tile coordinates of the maze (src/grid.rs) and the four directions
    (src/actor/movement.rs; identical in src/movement.rs). */
module Grid {

  datatype Dir = Left | Right | Down | Up

  /** The enumeration order used wherever iteration order breaks ties. */
  const DIRECTIONS: seq<Dir> := [Up, Left, Down, Right]

  /** Position of a direction in DIRECTIONS. */
  function Rank(d: Dir): (k: nat)
    ensures k < |DIRECTIONS| && DIRECTIONS[k] == d
  {
    match d
    case Up => 0
    case Left => 1
    case Down => 2
    case Right => 3
  }

  /** A discrete maze address; equality is by value. Coordinates are `isize`
      in the game and are unbounded here. */
  datatype GridLocation = GridLocation(x: int, y: int)

  /** Translate by `amount` tiles; Up is +y and Down is -y. */
  function ShiftBy(loc: GridLocation, dir: Dir, amount: int): GridLocation
  {
    match dir
    case Left => GridLocation(loc.x - amount, loc.y)
    case Right => GridLocation(loc.x + amount, loc.y)
    case Down => GridLocation(loc.x, loc.y - amount)
    case Up => GridLocation(loc.x, loc.y + amount)
  }

  /** The neighbouring tile in direction `dir`. */
  function Shift(loc: GridLocation, dir: Dir): GridLocation
  {
    ShiftBy(loc, dir, 1)
  }

  /** The coordinates as a vector of the same numbers. */
  function ToUnscaledVec2(loc: GridLocation): (v: (int, int))
    ensures v.0 == loc.x && v.1 == loc.y
  {
    (loc.x, loc.y)
  }

  /** Squared Euclidean distance between two tiles, in tile units. */
  function DistanceSquared(a: GridLocation, b: GridLocation): (d: int)
    ensures d >= 0
    ensures d == 0 <==> a == b
  {
    var (ax, ay) := ToUnscaledVec2(a);
    var (bx, bY) := ToUnscaledVec2(b);
    SquareSum(ax - bx, ay - bY)
  }

  function SquareSum(dx: int, dy: int): (s: int)
    ensures s >= 0
    ensures s == 0 <==> dx == 0 && dy == 0
  {
    SquareNonNegative(dx);
    SquareNonNegative(dy);
    dx * dx + dy * dy
  }

  lemma SquareNonNegative(n: int)
    ensures n * n >= 0
    ensures n * n == 0 <==> n == 0
  {
    if n < 0 {
      assert n * n == (-n) * (-n);
      assert (-n) * (-n) >= -n;
    } else if n > 0 {
      assert n * n >= n;
    }
  }

  lemma ShiftIsShiftByOne(loc: GridLocation, dir: Dir)
    ensures Shift(loc, dir) == ShiftBy(loc, dir, 1)
  {
  }

  /** The offsets of each direction: Left (-a, 0), Right (+a, 0), Down (0, -a), Up (0, +a). */
  lemma ShiftByOffsets(loc: GridLocation, a: int)
    ensures ShiftBy(loc, Left, a) == GridLocation(loc.x - a, loc.y)
    ensures ShiftBy(loc, Right, a) == GridLocation(loc.x + a, loc.y)
    ensures ShiftBy(loc, Down, a) == GridLocation(loc.x, loc.y - a)
    ensures ShiftBy(loc, Up, a) == GridLocation(loc.x, loc.y + a)
  {
  }

  lemma ShiftByZero(loc: GridLocation, dir: Dir)
    ensures ShiftBy(loc, dir, 0) == loc
  {
  }

  lemma ShiftByAdditive(loc: GridLocation, dir: Dir, a: int, b: int)
    ensures ShiftBy(ShiftBy(loc, dir, a), dir, b) == ShiftBy(loc, dir, a + b)
  {
  }

  /** Shifting back the other way returns the original tile. */
  lemma ShiftOppositeCancels(loc: GridLocation, a: int)
    ensures ShiftBy(ShiftBy(loc, Left, a), Right, a) == loc
    ensures ShiftBy(ShiftBy(loc, Right, a), Left, a) == loc
    ensures ShiftBy(ShiftBy(loc, Up, a), Down, a) == loc
    ensures ShiftBy(ShiftBy(loc, Down, a), Up, a) == loc
  {
  }

  /** A horizontal shift changes x only and a vertical one changes y only, by exactly `a`. */
  lemma ShiftByMovesOneAxis(loc: GridLocation, dir: Dir, a: int)
    ensures var r := ShiftBy(loc, dir, a);
            if dir == Left || dir == Right
            then r.y == loc.y && (r.x - loc.x == a || r.x - loc.x == -a)
            else r.x == loc.x && (r.y - loc.y == a || r.y - loc.y == -a)
    ensures a != 0 ==> ShiftBy(loc, dir, a) != loc
  {
  }

  /** A shift by `a` lands at squared distance a*a. */
  lemma ShiftByDistance(loc: GridLocation, dir: Dir, a: int)
    ensures DistanceSquared(loc, ShiftBy(loc, dir, a)) == a * a
  {
    assert (-a) * (-a) == a * a;
  }

  /** `n` single-tile steps in one direction. */
  function Walk(loc: GridLocation, dir: Dir, n: nat): GridLocation
  {
    if n == 0 then loc else Shift(Walk(loc, dir, n - 1), dir)
  }

  /** A shift by `n` is `n` single steps. */
  lemma {:induction false} ShiftByIsWalk(loc: GridLocation, dir: Dir, n: nat)
    ensures ShiftBy(loc, dir, n) == Walk(loc, dir, n)
  {
    if n > 0 {
      ShiftByIsWalk(loc, dir, n - 1);
      ShiftByAdditive(loc, dir, n - 1, 1);
    }
  }
}
