/**
 * Shared vocabulary of the Living Matrix simulation core (matrix-evolution/sim-core.js):
 * its constants, the byte cells of its typed arrays, `clamp`, `randomFloat`, `idx`,
 * and the injected sources of randomness and of transcendental functions.
 */
module SimBase {

  // Constants of the simulation (sim-core.js lines 3-11).
  const GRID_W: nat := 72
  const GRID_H: nat := 48
  const MAX_ENERGY: real := 120.0
  const ENERGY_DECAY: real := 0.3
  const EAT_GAIN: real := 35.0
  const EMIT_COST: real := 4.0
  const PHEROMONE_DECAY: byte := 3
  const OSC_PERIOD: real := 20.0

  /** One cell of a `Uint8Array`. */
  newtype byte = x: int | 0 <= x < 256

  function Min(a: real, b: real): real { if a <= b then a else b }
  function Max(a: real, b: real): real { if a >= b then a else b }

  /** `clamp(v, lo, hi)`: `Math.max(lo, Math.min(hi, v))`, defined even when `lo > hi`. */
  function Clamp(v: real, lo: real, hi: real): (r: real)
    ensures lo <= hi ==> lo <= r <= hi
    ensures lo <= v <= hi ==> r == v
    ensures lo <= hi && v < lo ==> r == lo
    ensures lo <= hi && hi < v ==> r == hi
    ensures hi < lo ==> r == lo
  {
    Max(lo, Min(hi, v))
  }

  /** A source of uniform draws: the `n`-th call of an injected `rng()` returns `rng(n)`. */
  type Stream = nat -> real

  /** Every draw lies in [0, 1), as `Math.random` promises. */
  ghost predicate UnitStream(rng: Stream) {
    forall n :: 0.0 <= rng(n) < 1.0
  }

  /** `randomFloat(rng, min, max)` with the draw `u` already taken. */
  function RandomFloat(u: real, min: real, max: real): (r: real)
    ensures 0.0 <= u < 1.0 && min <= max ==> min <= r <= max
    ensures 0.0 <= u < 1.0 && min < max ==> r < max
  {
    var span := max - min;
    ScaleByUnit(u, span);
    assert 0.0 <= u < 1.0 && min <= max ==> u * span <= span;
    u * span + min
  }

  /** Scaling a non-negative span by a draw in [0, 1) stays inside the span. */
  lemma ScaleByUnit(u: real, d: real)
    ensures 0.0 <= u < 1.0 && 0.0 <= d ==> 0.0 <= u * d <= d
    ensures 0.0 <= u < 1.0 && 0.0 < d ==> u * d < d
  {
    if 0.0 <= u < 1.0 && 0.0 <= d {
      assert u * d + (1.0 - u) * d == d;
      assert 0.0 <= (1.0 - u) * d;
      if 0.0 < d {
        assert 0.0 < (1.0 - u) * d;
      }
    }
  }

  /** A function whose values all lie in [-1, 1], the range fact of `Math.tanh` and `Math.sin`. */
  ghost predicate UnitRange(f: real -> real) {
    forall v :: -1.0 <= f(v) <= 1.0
  }

  /**
   * The transcendental functions the core calls: `Math.tanh`, `Math.sin` taken as a function of
   * the angle measured in turns (`sinTurns(t)` is `sin(2 * PI * t)`), and `Math.sqrt`.
   */
  datatype Maths = Maths(tanh: real -> real, sinTurns: real -> real, sqrt: real -> real)

  /**
   * `a * b` by repeated addition. Grid areas and row offsets are written with it so that the
   * solver meets no products of two variables; `MulIsProduct` ties it to `*`.
   */
  function Mul(a: nat, b: nat): nat
    decreases a
  {
    if a == 0 then 0 else Mul(a - 1, b) + b
  }

  lemma {:induction false} MulIsProduct(a: nat, b: nat)
    ensures Mul(a, b) == a * b
    decreases a
  {
    if a > 0 {
      MulIsProduct(a - 1, b);
      assert (a - 1) * b + b == a * b;
    }
  }

  /** Whole rows: the rows before row y + 1 end no later than the rows before any later row. */
  lemma {:induction false} MulRowsBefore(y: nat, rows: nat, width: nat)
    requires y < rows
    ensures Mul(y, width) + width <= Mul(rows, width)
    decreases rows - y
  {
    if y + 1 < rows {
      MulRowsBefore(y + 1, rows, width);
    }
  }

  /** The size `width * height` of every buffer of the state. */
  function Area(width: nat, height: nat): nat {
    Mul(height, width)
  }

  /** `idx(state, x, y)`: the row-major index `y * width + x` of cell (x, y). */
  function Idx(width: nat, x: int, y: nat): int {
    Mul(y, width) + x
  }

  /** A cell inside the grid has an index inside the buffer. */
  lemma IdxInGrid(width: nat, height: nat, x: int, y: int)
    requires 0 <= x < width && 0 <= y < height
    ensures 0 <= Idx(width, x, y) < Area(width, height)
  {
    MulRowsBefore(y, height, width);
  }

  /** Row-major order: a cell earlier in the scan has a smaller index, so no two cells share one. */
  lemma IdxOrdered(width: nat, x1: int, y1: nat, x2: int, y2: nat)
    requires 0 <= x1 < width && 0 <= x2 < width
    requires y1 < y2 || (y1 == y2 && x1 < x2)
    ensures Idx(width, x1, y1) < Idx(width, x2, y2)
  {
    if y1 < y2 {
      MulRowsBefore(y1, y2, width);
    }
  }

  /** `Idx` is the source's `y * width + x`. */
  lemma IdxIsRowMajor(width: nat, x: int, y: nat)
    ensures Idx(width, x, y) == y * width + x
  {
    MulIsProduct(y, width);
  }

  /** The cell (x, y) of a row-major buffer. */
  function At(g: seq<byte>, width: nat, height: nat, x: int, y: int): byte
    requires |g| == Area(width, height)
    requires 0 <= x < width && 0 <= y < height
  {
    IdxInGrid(width, height, x, y);
    g[Idx(width, x, y)]
  }
}
