/** The bounded movement rule that every generation of the simulation
    repeats: four guarded branches tried in the order up, down, right,
    left, each seeing the position left by the ones before it. Up and
    left only test that the coordinate is still positive; down and right
    look one step ahead and are suppressed entirely when the far edge
    would pass the map's size. */
module Motion {
  import opened Common

  /** One tick of movement for a body of size `size` at `p` moving with
      per-axis speed `vel` inside a map of size `bounds`. */
  function Step(p: Vec, size: Size, vel: Vec, move: Movement, bounds: Size): (r: Vec)
    // no intent on an axis, no motion on it
    ensures !move.up && !move.down ==> r.y == p.y
    ensures !move.left && !move.right ==> r.x == p.x
    // a single direction moves by exactly one step, or not at all when its guard fails
    ensures move.up && !move.down ==> r.y == (if p.y > 0.0 then p.y - vel.y else p.y)
    ensures move.down && !move.up ==>
              r.y == (if p.y + size.height + vel.y <= bounds.height then p.y + vel.y else p.y)
    ensures move.right && !move.left ==>
              r.x == (if p.x + size.width + vel.x <= bounds.width then p.x + vel.x else p.x)
    ensures move.left && !move.right ==> r.x == (if p.x > 0.0 then p.x - vel.x else p.x)
    // the look-ahead guards never push the far edge past the map
    ensures vel.y >= 0.0 && p.y + size.height <= bounds.height ==> r.y + size.height <= bounds.height
    ensures vel.x >= 0.0 && p.x + size.width <= bounds.width ==> r.x + size.width <= bounds.width
    // opposite flags cancel when both branches fire: up runs before down, right before left
    ensures move.up && move.down && p.y > 0.0 && p.y + size.height <= bounds.height ==> r.y == p.y
    ensures (move.right && move.left && vel.x > 0.0 && p.x >= 0.0
             && p.x + size.width + vel.x <= bounds.width) ==> r.x == p.x
  {
    Vec(RightThenLeft(p.x, size.width, vel.x, bounds.width, move.right, move.left),
        UpThenDown(p.y, size.height, vel.y, bounds.height, move.up, move.down))
  }

  /** The vertical half of a tick: the up branch (coordinate still
      positive), then the down branch (look-ahead against `limit`). */
  function UpThenDown(c: real, extent: real, v: real, limit: real, up: bool, down: bool): real
  {
    var afterUp := if up && c > 0.0 then c - v else c;
    if down && afterUp + extent + v <= limit then afterUp + v else afterUp
  }

  /** The horizontal half of a tick: the right branch (look-ahead against
      `limit`), then the left branch (coordinate still positive). */
  function RightThenLeft(c: real, extent: real, v: real, limit: real, right: bool, left: bool): real
  {
    var afterRight := if right && c + extent + v <= limit then c + v else c;
    if left && afterRight > 0.0 then afterRight - v else afterRight
  }

  /** The body lies inside the map: each coordinate is a whole number
      (`kx`, `ky`) of steps from the origin, so never left of or above it,
      and its far edges are inside the map's size. A body spawned at
      (100, 100) moving in steps of 2 (or 10) starts like this. */
  predicate InsideAt(p: Vec, size: Size, vel: Vec, bounds: Size, kx: nat, ky: nat)
  {
    vel.x > 0.0 && vel.y > 0.0
    && p.x == kx as real * vel.x && p.y == ky as real * vel.y
    && p.x + size.width <= bounds.width && p.y + size.height <= bounds.height
  }

  /** Moving one step towards the far edge keeps a coordinate on the grid. */
  lemma IncrementKeepsGrid(c: real, v: real, k: nat) returns (k': nat)
    requires v > 0.0 && c == k as real * v
    ensures c + v == k' as real * v && k' == k + 1
  {
    k' := k + 1;
    assert k' as real * v == k as real * v + 1.0 * v;
  }

  /** A positive coordinate that is a whole number of steps from the
      origin is at least one step away from it, so the up/left branch
      lands on the grid again. */
  lemma DecrementKeepsGrid(c: real, v: real, k: nat) returns (k': nat)
    requires v > 0.0 && c == k as real * v && c > 0.0
    ensures c - v == k' as real * v && k' + 1 == k
  {
    assert k != 0;
    k' := k - 1;
    assert k as real * v == k' as real * v + 1.0 * v;
  }

  /** A whole number of steps is never left of or above the origin. */
  lemma GridIsNonNegative(v: real, k: nat)
    requires v > 0.0
    ensures k as real * v >= 0.0
  {
  }

  /** The vertical half of a tick keeps a coordinate on the grid and its
      far edge inside the map. */
  lemma UpThenDownKeepsInside(c: real, extent: real, v: real, limit: real, up: bool, down: bool, k: nat)
    returns (k': nat)
    requires v > 0.0 && c == k as real * v && c + extent <= limit
    ensures UpThenDown(c, extent, v, limit, up, down) == k' as real * v
    ensures UpThenDown(c, extent, v, limit, up, down) + extent <= limit
  {
    k' := k;
    var y := c;
    if up && y > 0.0 { k' := DecrementKeepsGrid(y, v, k'); y := y - v; }
    if down && y + extent + v <= limit { k' := IncrementKeepsGrid(y, v, k'); }
  }

  /** The horizontal half of a tick keeps a coordinate on the grid and its
      far edge inside the map. */
  lemma RightThenLeftKeepsInside(c: real, extent: real, v: real, limit: real, right: bool, left: bool, k: nat)
    returns (k': nat)
    requires v > 0.0 && c == k as real * v && c + extent <= limit
    ensures RightThenLeft(c, extent, v, limit, right, left) == k' as real * v
    ensures RightThenLeft(c, extent, v, limit, right, left) + extent <= limit
  {
    k' := k;
    var x := c;
    if right && x + extent + v <= limit { k' := IncrementKeepsGrid(x, v, k'); x := x + v; }
    if left && x > 0.0 { k' := DecrementKeepsGrid(x, v, k'); }
  }

  /** A body that starts inside the map stays inside after one tick,
      whatever its intent: the lower bound because up/left only fire on a
      positive coordinate that is a whole number of steps from 0, the upper
      bound because down/right look ahead. */
  lemma StepKeepsInside(p: Vec, size: Size, vel: Vec, move: Movement, bounds: Size, kx: nat, ky: nat)
    returns (kx': nat, ky': nat)
    requires InsideAt(p, size, vel, bounds, kx, ky)
    ensures InsideAt(Step(p, size, vel, move, bounds), size, vel, bounds, kx', ky')
    ensures 0.0 <= Step(p, size, vel, move, bounds).x && 0.0 <= Step(p, size, vel, move, bounds).y
  {
    kx' := RightThenLeftKeepsInside(p.x, size.width, vel.x, bounds.width, move.right, move.left, kx);
    ky' := UpThenDownKeepsInside(p.y, size.height, vel.y, bounds.height, move.up, move.down, ky);
    GridIsNonNegative(vel.x, kx');
    GridIsNonNegative(vel.y, ky');
  }

  /** The position after one tick per intent in `moves`, in order: the
      intent may change between ticks, as movement commands arrive. */
  function Run(p: Vec, size: Size, vel: Vec, moves: seq<Movement>, bounds: Size): Vec
  {
    if moves == [] then p
    else Step(Run(p, size, vel, moves[..|moves| - 1], bounds), size, vel, moves[|moves| - 1], bounds)
  }

  /** Any sequence of ticks keeps a body that starts inside the map inside
      it: never at a negative coordinate, never past the far edges, always
      a whole number of steps from the origin. */
  lemma {:induction false} RunKeepsInside(p: Vec, size: Size, vel: Vec, moves: seq<Movement>, bounds: Size,
                                          kx: nat, ky: nat)
    returns (kx': nat, ky': nat)
    requires InsideAt(p, size, vel, bounds, kx, ky)
    ensures InsideAt(Run(p, size, vel, moves, bounds), size, vel, bounds, kx', ky')
    ensures 0.0 <= Run(p, size, vel, moves, bounds).x && 0.0 <= Run(p, size, vel, moves, bounds).y
  {
    if moves == [] {
      kx', ky' := kx, ky;
    } else {
      var earlier := moves[..|moves| - 1];
      var ax, ay := RunKeepsInside(p, size, vel, earlier, bounds, kx, ky);
      kx', ky' := StepKeepsInside(Run(p, size, vel, earlier, bounds), size, vel, moves[|moves| - 1], bounds, ax, ay);
    }
  }
}
