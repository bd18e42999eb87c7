/** Straight-line integration, the update rule of every shot: each tick
    adds the velocity to the position, with no bound and no removal. */
module Kinematics {
  import opened Common

  /** The position one tick later. */
  function Advance(p: Vec, v: Vec): (r: Vec)
    ensures r.x - p.x == v.x && r.y - p.y == v.y
  {
    Vec(p.x + v.x, p.y + v.y)
  }

  /** The position after `n` ticks at constant velocity. */
  function Flight(p: Vec, v: Vec, n: nat): Vec
  {
    if n == 0 then p else Advance(Flight(p, v, n - 1), v)
  }

  /** `n` updates move a shot by exactly `n` times its velocity. */
  lemma {:induction false} FlightIsLinear(p: Vec, v: Vec, n: nat)
    ensures Flight(p, v, n) == Vec(p.x + n as real * v.x, p.y + n as real * v.y)
  {
    if n > 0 {
      FlightIsLinear(p, v, n - 1);
      assert (n - 1) as real * v.x + v.x == n as real * v.x;
      assert (n - 1) as real * v.y + v.y == n as real * v.y;
    }
  }

  /** Flights compose: `m` ticks then `n` ticks is `m + n` ticks. */
  lemma {:induction false} FlightsCompose(p: Vec, v: Vec, m: nat, n: nat)
    ensures Flight(Flight(p, v, m), v, n) == Flight(p, v, m + n)
  {
    if n > 0 {
      FlightsCompose(p, v, m, n - 1);
    }
  }
}
