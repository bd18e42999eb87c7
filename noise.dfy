/** The tile grid generator (`TileMapGenerator` in map-generator.ts):
    gradient noise sampled every tenth of a lattice cell, floored after
    scaling by 254 and banded around 127. The random unit gradients come
    from an oracle `draw`, whose n-th value is the n-th vector the source
    draws; everything else is exact arithmetic on reals. */
module Noise {
  import opened Common

  const ColorScale := 254

  /** A lattice point, the key of the gradient cache. */
  type Lattice = (int, int)

  /** `6x^5 - 15x^4 + 10x^3`. */
  function Smootherstep(x: real): (r: real)
    ensures x == 0.0 ==> r == 0.0
    ensures x == 1.0 ==> r == 1.0
  {
    6.0 * x * x * x * x * x - 15.0 * x * x * x * x + 10.0 * x * x * x
  }

  /** On [0, 1] the curve stays within [0, 1]: it factors as
      x^3 (6x^2 - 15x + 10) and 1 minus it as (1 - x)^3 (6x^2 + 3x + 1),
      and both quadratics are positive everywhere. */
  lemma SmootherstepInUnit(x: real)
    requires 0.0 <= x <= 1.0
    ensures 0.0 <= Smootherstep(x) <= 1.0
  {
    var q := 6.0 * x * x - 15.0 * x + 10.0;
    var u := 6.0 * x * x + 3.0 * x + 1.0;
    assert q == 6.0 * ((x - 1.25) * (x - 1.25)) + 0.625;
    assert u == 6.0 * ((x + 0.25) * (x + 0.25)) + 0.625;
    SquareNonNegative(x - 1.25);
    SquareNonNegative(x + 0.25);
    assert 0.0 <= q && 0.0 <= u;
    assert Smootherstep(x) == x * x * x * q;
    assert 1.0 - Smootherstep(x) == (1.0 - x) * (1.0 - x) * (1.0 - x) * u;
    CubeNonNegative(x);
    CubeNonNegative(1.0 - x);
    ProductNonNegative(x * x * x, q);
    ProductNonNegative((1.0 - x) * (1.0 - x) * (1.0 - x), u);
  }

  lemma CubeNonNegative(a: real)
    requires 0.0 <= a
    ensures 0.0 <= a * a * a
  {
    ProductNonNegative(a, a);
    ProductNonNegative(a * a, a);
  }

  lemma SquareNonNegative(d: real)
    ensures 0.0 <= d * d
  {
    if d >= 0.0 {
      ProductNonNegative(d, d);
    } else {
      ProductNonNegative(-d, -d);
    }
  }

  lemma ProductNonNegative(a: real, b: real)
    requires 0.0 <= a && 0.0 <= b
    ensures 0.0 <= a * b
  {
  }

  /** `a + smootherstep(x) * (b - a)`. */
  function Interp(x: real, a: real, b: real): (r: real)
    ensures x == 0.0 ==> r == a
    ensures x == 1.0 ==> r == b
    ensures a == b ==> r == a
  {
    a + Smootherstep(x) * (b - a)
  }

  /** Between the two lattice values the interpolation never overshoots. */
  lemma InterpBetween(x: real, a: real, b: real)
    requires 0.0 <= x <= 1.0
    ensures a <= b ==> a <= Interp(x, a, b) <= b
    ensures b <= a ==> b <= Interp(x, a, b) <= a
  {
    SmootherstepInUnit(x);
    var s := Smootherstep(x);
    if a <= b {
      ProductNonNegative(s, b - a);
      ProductNonNegative(1.0 - s, b - a);
    } else {
      ProductNonNegative(s, a - b);
      ProductNonNegative(1.0 - s, a - b);
    }
  }

  /** `dot_prod_grid` once the gradient `g` of lattice point (`vx`, `vy`) is known. */
  function Dot(x: real, y: real, vx: int, vy: int, g: Vec): (r: real)
    ensures x == vx as real && y == vy as real ==> r == 0.0
  {
    (x - vx as real) * g.x + (y - vy as real) * g.y
  }

  /** The gradients of the four lattice points around (`x`, `y`) are known. */
  predicate HasCorners(grads: map<Lattice, Vec>, x: real, y: real)
  {
    && (x.Floor, y.Floor) in grads && (x.Floor + 1, y.Floor) in grads
    && (x.Floor, y.Floor + 1) in grads && (x.Floor + 1, y.Floor + 1) in grads
  }

  /** The noise value `get(x, y)` computes from the gradients of the four corners. */
  function Sample(grads: map<Lattice, Vec>, x: real, y: real): real
    requires HasCorners(grads, x, y)
  {
    var xf := x.Floor;
    var yf := y.Floor;
    var tl := Dot(x, y, xf, yf, grads[(xf, yf)]);
    var tr := Dot(x, y, xf + 1, yf, grads[(xf + 1, yf)]);
    var bl := Dot(x, y, xf, yf + 1, grads[(xf, yf + 1)]);
    var br := Dot(x, y, xf + 1, yf + 1, grads[(xf + 1, yf + 1)]);
    var xt := Interp(x - xf as real, tl, tr);
    var xb := Interp(x - xf as real, bl, br);
    Interp(y - yf as real, xt, xb)
  }

  /** The noise is zero at every lattice point, whatever the gradients. */
  lemma SampleVanishesOnLattice(grads: map<Lattice, Vec>, i: int, j: int)
    requires HasCorners(grads, i as real, j as real)
    ensures Sample(grads, i as real, j as real) == 0.0
  {
    assert (i as real).Floor == i && (j as real).Floor == j;
  }

  /** A sample depends only on the gradients of its corners, so a cache
      that only grows never changes a stored sample. */
  lemma SampleStable(g: map<Lattice, Vec>, h: map<Lattice, Vec>, x: real, y: real)
    requires HasCorners(g, x, y)
    requires forall k :: k in g ==> k in h && h[k] == g[k]
    ensures HasCorners(h, x, y) && Sample(h, x, y) == Sample(g, x, y)
  {
  }

  /** Every memoised sample is the sample of its point under `grads`. */
  ghost predicate Agrees(grads: map<Lattice, Vec>, memory: map<(real, real), real>)
  {
    forall k :: k in memory ==> HasCorners(grads, k.0, k.1) && memory[k] == Sample(grads, k.0, k.1)
  }

  /** Drawing a new gradient keeps every memoised sample correct. */
  lemma ExtendKeepsAgreement(g: map<Lattice, Vec>, h: map<Lattice, Vec>, memory: map<(real, real), real>)
    requires Agrees(g, memory)
    requires forall k :: k in g ==> k in h && h[k] == g[k]
    ensures Agrees(h, memory)
  {
    forall k | k in memory
      ensures HasCorners(h, k.0, k.1) && memory[k] == Sample(h, k.0, k.1)
    {
      SampleStable(g, h, k.0, k.1);
    }
  }

  /** Banding of a floored, scaled sample: a negative `v` becomes |v| / 2,
      any other `v` becomes 127 + v / 2 (halves are kept). */
  function Band(v: int): (r: real)
    ensures v < 0 ==> r == -(v as real) / 2.0 && r > 0.0
    ensures v >= 0 ==> r == 127.0 + (v as real) / 2.0 && r >= 127.0
  {
    if v < 0 then Abs(v as real / 2.0)
    else (ColorScale as real / 2.0) + (v as real / 2.0)
  }

  /** `Math.abs`. */
  function Abs(r: real): (a: real)
    ensures a >= 0.0 && (a == r || a == -r)
  {
    if r < 0.0 then -r else r
  }

  /** A band value is below the mid value 127 exactly when the floored
      sample was negative and above -254. */
  lemma BandBelowMid(v: int)
    ensures Band(v) < 127.0 <==> -254 < v < 0
  {
  }

  /** The stored value of one tile, from its noise sample. */
  function Cell(sample: real): (r: real)
    ensures sample == 0.0 ==> r == 127.0
    ensures sample >= 0.0 ==> r >= 127.0
    ensures r < 127.0 <==> sample < 0.0 && (sample * ColorScale as real).Floor > -254
  {
    BandBelowMid((sample * ColorScale as real).Floor);
    Band((sample * ColorScale as real).Floor)
  }

  /** A multiple of 10 divided by 10 is the whole number of tens. */
  lemma TenthsOfMultiple(x: int)
    requires x % 10 == 0
    ensures x as real / 10.0 == (x / 10) as real
  {
    assert x == 10 * (x / 10);
  }

  /** `grads` is exactly what giving the i-th draw to the i-th point of
      `order` yields, every point of `order` being new. */
  ghost predicate Replays(grads: map<Lattice, Vec>, order: seq<Lattice>, draw: nat -> Vec)
  {
    if order == [] then grads == map[]
    else
      var last := order[|order| - 1];
      && last in grads && grads[last] == draw(|order| - 1)
      && Replays(grads - {last}, order[..|order| - 1], draw)
  }

  /** Replaying gives each point of the order its own draw: the i-th point
      holds the i-th vector, no point occurs twice, and no other point has
      a gradient. */
  lemma {:induction false} ReplaysDraws(grads: map<Lattice, Vec>, order: seq<Lattice>, draw: nat -> Vec)
    requires Replays(grads, order, draw)
    ensures forall k :: k in grads <==> k in order
    ensures forall i :: 0 <= i < |order| ==> order[i] in grads && grads[order[i]] == draw(i)
    ensures forall i, j :: 0 <= i < j < |order| ==> order[i] != order[j]
  {
    if order != [] {
      var n := |order| - 1;
      var prefix := order[..n];
      ReplaysDraws(grads - {order[n]}, prefix, draw);
      assert order == prefix + [order[n]];
      forall i | 0 <= i < n
        ensures order[i] in grads - {order[n]}
      {
        assert order[i] == prefix[i];
      }
    }
  }

  /** Where tile (`i`, `j`) is sampled: `(x / 10, y / 10)`. */
  function SamplePoint(i: nat, j: nat): (p: (real, real))
    ensures 10.0 * p.0 == i as real && 10.0 * p.1 == j as real
  {
    (i as real / 10.0, j as real / 10.0)
  }

  class Generator {
    var gradients: map<Lattice, Vec>
    var memory: map<(real, real), real>
    /** How many random vectors have been drawn. */
    var drawn: nat
    /** The lattice points in the order their gradients were drawn. */
    ghost var order: seq<Lattice>
    /** The n-th vector `rand_vect` would return. */
    const draw: nat -> Vec
    var tiles: seq<seq<real>>

    /** The gradients are the draws handed out in first-use order, each
        to a new lattice point. */
    ghost predicate Valid()
      reads this
    {
      && |order| == drawn
      && |gradients| == drawn
      && Replays(gradients, order, draw)
    }

    /** Every memoised sample agrees with the gradients. */
    ghost predicate Memoised()
      reads this
    {
      Agrees(gradients, memory)
    }

    /** The gradient cache only grows: no drawn gradient changes. */
    ghost predicate Grown(g: map<Lattice, Vec>)
      reads this
    {
      forall k :: k in g ==> k in gradients && gradients[k] == g[k]
    }

    /** `dot_prod_grid`: the gradient of (`vx`, `vy`) is drawn on first use
        and reused afterwards. */
    method DotProdGrid(x: real, y: real, vx: int, vy: int) returns (d: real)
      requires Valid()
      modifies this
      ensures Valid() && Grown(old(gradients)) && memory == old(memory)
      ensures (vx, vy) in gradients && d == Dot(x, y, vx, vy, gradients[(vx, vy)])
      ensures (vx, vy) in old(gradients) ==> gradients == old(gradients) && drawn == old(drawn)
      ensures (vx, vy) !in old(gradients) ==>
                gradients == old(gradients)[(vx, vy) := draw(old(drawn))] && drawn == old(drawn) + 1
      ensures tiles == old(tiles)
    {
      var key := (vx, vy);
      if key !in gradients {
        var g := draw(drawn);
        gradients := gradients[key := g];
        order := order + [key];
        drawn := drawn + 1;
        assert order[..|order| - 1] == old(order);
        assert gradients - {key} == old(gradients);
      }
      d := Dot(x, y, vx, vy, gradients[key]);
    }

    /** The four `dot_prod_grid` calls of `get`, in the source's order:
        top-left, top-right, bottom-left, bottom-right. */
    method CornerDots(x: real, y: real, xf: int, yf: int) returns (tl: real, tr: real, bl: real, br: real)
      requires Valid()
      modifies this
      ensures Valid() && Grown(old(gradients)) && memory == old(memory)
      ensures (xf, yf) in gradients && (xf + 1, yf) in gradients && (xf, yf + 1) in gradients && (xf + 1, yf + 1) in gradients
      ensures tl == Dot(x, y, xf, yf, gradients[(xf, yf)])
      ensures tr == Dot(x, y, xf + 1, yf, gradients[(xf + 1, yf)])
      ensures bl == Dot(x, y, xf, yf + 1, gradients[(xf, yf + 1)])
      ensures br == Dot(x, y, xf + 1, yf + 1, gradients[(xf + 1, yf + 1)])
      ensures tiles == old(tiles)
    {
      tl := DotProdGrid(x, y, xf, yf);
      ghost var g1 := gradients[(xf, yf)];
      tr := DotProdGrid(x, y, xf + 1, yf);
      ghost var g2 := gradients[(xf + 1, yf)];
      bl := DotProdGrid(x, y, xf, yf + 1);
      ghost var g3 := gradients[(xf, yf + 1)];
      br := DotProdGrid(x, y, xf + 1, yf + 1);
      assert gradients[(xf, yf)] == g1 && gradients[(xf + 1, yf)] == g2 && gradients[(xf, yf + 1)] == g3;
    }

    /** `get(x, y)`: a memoised sample is returned as stored and changes
        nothing; otherwise the sample is computed from the four corner
        gradients and stored. */
    method Get(x: real, y: real) returns (v: real)
      requires Valid() && Memoised()
      modifies this
      ensures Valid() && Memoised() && Grown(old(gradients))
      ensures forall k :: k in old(memory) ==> k in memory && memory[k] == old(memory)[k]
      ensures HasCorners(gradients, x, y) && v == Sample(gradients, x, y)
      ensures (x, y) in memory && memory[(x, y)] == v
      ensures (x, y) in old(memory) ==>
                v == old(memory[(x, y)]) && gradients == old(gradients) && memory == old(memory) && drawn == old(drawn)
      ensures memory.Keys == old(memory).Keys + {(x, y)}
      ensures tiles == old(tiles)
    {
      if (x, y) in memory {
        return memory[(x, y)];
      }
      var xf := x.Floor;
      var yf := y.Floor;
      var tl, tr, bl, br := CornerDots(x, y, xf, yf);
      ExtendKeepsAgreement(old(gradients), gradients, memory);
      var xt := Interp(x - xf as real, tl, tr);
      var xb := Interp(x - xf as real, bl, br);
      v := Interp(y - yf as real, xt, xb);
      assert v == Sample(gradients, x, y);
      memory := memory[(x, y) := v];
    }

    /** `width` tiles of row `y`, each the cell value of the sample at its
        point; gradients and samples drawn for earlier rows stay as they were. */
    method FillRow(y: nat, width: nat) returns (row: seq<real>)
      requires Valid() && Memoised()
      modifies this
      ensures Valid() && Memoised()
      ensures forall k :: k in old(memory) ==> k in memory && memory[k] == old(memory)[k]
      ensures RowFilled(memory, row, y, width)
    {
      row := [];
      var x := 0;
      while x < width
        invariant Valid() && Memoised()
        invariant forall k :: k in old(memory) ==> k in memory && memory[k] == old(memory)[k]
        invariant 0 <= x <= width && RowFilled(memory, row, y, x)
      {
        ghost var before := memory;
        var sample := Get(x as real / 10.0, y as real / 10.0);
        RowExtend(before, memory, row, y, x);
        row := row + [Cell(sample)];
        x := x + 1;
      }
    }

    /** Fills `tilesY` rows of `tilesX` tiles, row by row, sampling tile
        (x, y) at (x / 10, y / 10). */
    constructor (tilesX: nat, tilesY: nat, draw: nat -> Vec)
      ensures Valid() && Memoised() && this.draw == draw
      ensures |tiles| == tilesY && forall y :: 0 <= y < tilesY ==> |tiles[y]| == tilesX
      ensures forall y, x :: 0 <= y < tilesY && 0 <= x < tilesX ==>
                HasCorners(gradients, SamplePoint(x, y).0, SamplePoint(x, y).1)
                && tiles[y][x] == Cell(Sample(gradients, SamplePoint(x, y).0, SamplePoint(x, y).1))
      // every tenth tile of every tenth row falls on a lattice point: mid value
      ensures forall y, x :: 0 <= y < tilesY && 0 <= x < tilesX && x % 10 == 0 && y % 10 == 0 ==>
                tiles[y][x] == 127.0
    {
      gradients := map[];
      memory := map[];
      drawn := 0;
      order := [];
      this.draw := draw;
      tiles := [];
      new;
      var rows: seq<seq<real>> := [];
      var y := 0;
      while y < tilesY
        invariant Valid() && Memoised() && 0 <= y <= tilesY && Filled(memory, rows, y, tilesX)
      {
        ghost var before := memory;
        var row := FillRow(y, tilesX);
        FilledExtend(before, memory, rows, row, y, tilesX);
        rows := rows + [row];
        y := y + 1;
      }
      tiles := rows;
      FilledSamples(gradients, memory, rows, tilesY, tilesX);
      FilledLattice(gradients, memory, rows, tilesY, tilesX);
    }
  }

  /** `row` holds the first `width` tiles of row `y`, each the cell value
      of the memoised sample at its point. */
  ghost predicate RowFilled(memory: map<(real, real), real>, row: seq<real>, y: nat, width: nat)
  {
    && |row| == width
    && forall i :: 0 <= i < width ==> SamplePoint(i, y) in memory && row[i] == Cell(memory[SamplePoint(i, y)])
  }

  /** A row keeps its tiles under a memo that only grew, and takes the
      next tile once its sample is memoised. */
  lemma RowExtend(before: map<(real, real), real>, after: map<(real, real), real>,
                  row: seq<real>, y: nat, x: nat)
    requires RowFilled(before, row, y, x)
    requires forall k :: k in before ==> k in after && after[k] == before[k]
    requires SamplePoint(x, y) in after
    ensures RowFilled(after, row + [Cell(after[SamplePoint(x, y)])], y, x + 1)
  {
    var next := row + [Cell(after[SamplePoint(x, y)])];
    forall i | 0 <= i < x + 1
      ensures SamplePoint(i, y) in after && next[i] == Cell(after[SamplePoint(i, y)])
    {
      if i < x {
        assert next[i] == row[i];
      }
    }
  }

  /** The first `height` rows each hold `width` tiles, each the cell value
      of the memoised sample at its point. */
  ghost predicate Filled(memory: map<(real, real), real>, rows: seq<seq<real>>, height: nat, width: nat)
  {
    && |rows| == height
    && (forall j :: 0 <= j < height ==> |rows[j]| == width)
    && (forall j, i :: 0 <= j < height && 0 <= i < width ==>
          SamplePoint(i, j) in memory && rows[j][i] == Cell(memory[SamplePoint(i, j)]))
  }

  /** A finished row appended to filled rows, under a memo that only grew. */
  lemma FilledExtend(before: map<(real, real), real>, after: map<(real, real), real>,
                     rows: seq<seq<real>>, row: seq<real>, height: nat, width: nat)
    requires Filled(before, rows, height, width)
    requires forall k :: k in before ==> k in after && after[k] == before[k]
    requires RowFilled(after, row, height, width)
    ensures Filled(after, rows + [row], height + 1, width)
  {
    forall j, i | 0 <= j < height + 1 && 0 <= i < width
      ensures SamplePoint(i, j) in after && (rows + [row])[j][i] == Cell(after[SamplePoint(i, j)])
    {
      if j < height {
        assert SamplePoint(i, j) in before;
      }
    }
  }

  /** Under agreeing memo and gradients, each filled tile is the cell value
      of the noise at its point. */
  lemma FilledSamples(grads: map<Lattice, Vec>, memory: map<(real, real), real>,
                      rows: seq<seq<real>>, height: nat, width: nat)
    requires Agrees(grads, memory) && Filled(memory, rows, height, width)
    ensures forall y, x :: 0 <= y < height && 0 <= x < width ==>
              HasCorners(grads, SamplePoint(x, y).0, SamplePoint(x, y).1)
              && rows[y][x] == Cell(Sample(grads, SamplePoint(x, y).0, SamplePoint(x, y).1))
  {
    forall y, x | 0 <= y < height && 0 <= x < width
      ensures HasCorners(grads, SamplePoint(x, y).0, SamplePoint(x, y).1)
      ensures rows[y][x] == Cell(Sample(grads, SamplePoint(x, y).0, SamplePoint(x, y).1))
    {
      assert SamplePoint(x, y) in memory;
    }
  }

  /** Tiles whose both indices are multiples of 10 sit on lattice points,
      where the noise is zero, so they hold the mid value 127. */
  lemma FilledLattice(grads: map<Lattice, Vec>, memory: map<(real, real), real>,
                      rows: seq<seq<real>>, height: nat, width: nat)
    requires Agrees(grads, memory) && Filled(memory, rows, height, width)
    ensures forall y, x :: 0 <= y < height && 0 <= x < width && x % 10 == 0 && y % 10 == 0 ==>
              rows[y][x] == 127.0
  {
    forall y, x | 0 <= y < height && 0 <= x < width && x % 10 == 0 && y % 10 == 0
      ensures rows[y][x] == 127.0
    {
      TenthsOfMultiple(x);
      TenthsOfMultiple(y);
      var p := SamplePoint(x, y);
      assert p == ((x / 10) as real, (y / 10) as real);
      assert p in memory && memory[p] == Sample(grads, p.0, p.1);
      SampleVanishesOnLattice(grads, x / 10, y / 10);
    }
  }
}
