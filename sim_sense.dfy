/**
 * The sensor vector of `sense` (matrix-evolution/sim-core.js:110-157): food in the four
 * neighbouring cells, proximity of the nearest other live agent, pheromone level and gradient,
 * distance to the walls, normalised energy, a clock oscillator and a noise draw.
 */
module Sensorium {
  import opened Wrappers
  import opened SimBase
  import opened Agents

  /** Sensing reaches at most 5 cells: `maxD2 = 25`. */
  const MAX_D2: real := 25.0

  /** The largest pheromone level, by which levels and gradients are normalised. */
  const PHEROMONE_MAX: real := 255.0

  /** Squared distance `dx * dx + dy * dy` between two agents. */
  function Dist2(a: Agent, b: Agent): (d: real)
    ensures 0.0 <= d
  {
    var dx := b.x - a.x;
    var dy := b.y - a.y;
    SquareNonNegative(dx);
    SquareNonNegative(dy);
    dx * dx + dy * dy
  }

  lemma SquareNonNegative(v: real)
    ensures 0.0 <= v * v
  {
    if v < 0.0 {
      var u := -v;
      assert v * v == u * u;
    }
  }

  /** Agent j is one the loop of `sense` looks at for agent self: another agent, and alive. */
  predicate Candidate(agents: seq<Agent>, self: nat, j: nat)
    requires j < |agents|
  {
    j != self && agents[j].alive
  }

  /**
   * `minDist2` after the loop has seen agents[..k]: None while it is still `Infinity`, else the
   * smallest squared distance seen, replaced only by a strictly smaller one.
   */
  function NearestIn(agents: seq<Agent>, self: nat, k: nat): (nearest: Option<real>)
    requires self < |agents| && k <= |agents|
    ensures nearest.Some? ==> 0.0 <= nearest.value
    ensures k == 0 ==> nearest.None?
    decreases k
  {
    if k == 0 then None
    else
      var rest := NearestIn(agents, self, k - 1);
      if !Candidate(agents, self, k - 1) then rest
      else
        var d := Dist2(agents[self], agents[k - 1]);
        match rest
        case None => Some(d)
        case Some(m) => if d < m then Some(d) else Some(m)
  }

  /**
   * `NearestIn` is the minimum over the candidates: None exactly when there is none, otherwise a
   * distance some candidate attains and no candidate undercuts.
   */
  lemma {:induction false} NearestIsMinimum(agents: seq<Agent>, self: nat, k: nat)
    requires self < |agents| && k <= |agents|
    ensures NearestIn(agents, self, k).None? <==> forall j :: 0 <= j < k ==> !Candidate(agents, self, j)
    ensures NearestIn(agents, self, k).Some? ==>
      && (exists j :: 0 <= j < k && Candidate(agents, self, j)
           && Dist2(agents[self], agents[j]) == NearestIn(agents, self, k).value)
      && (forall j :: 0 <= j < k && Candidate(agents, self, j)
           ==> NearestIn(agents, self, k).value <= Dist2(agents[self], agents[j]))
    decreases k
  {
    if k > 0 {
      NearestIsMinimum(agents, self, k - 1);
      if NearestIn(agents, self, k - 1).Some? {
        var j :| 0 <= j < k - 1 && Candidate(agents, self, j)
          && Dist2(agents[self], agents[j]) == NearestIn(agents, self, k - 1).value;
      }
    }
  }

  /** `prox`: 0 with no other live agent, else `clamp(1 - minDist2 / 25, 0, 1)`. */
  function Proximity(nearest: Option<real>): (p: real)
    ensures 0.0 <= p <= 1.0
    ensures p > 0.0 <==> nearest.Some? && nearest.value < MAX_D2
  {
    match nearest
    case None => 0.0
    case Some(d) => Clamp(1.0 - d / MAX_D2, 0.0, 1.0)
  }

  /** The proximity sensor fires exactly when some other live agent is closer than 5 cells. */
  lemma ProximityFires(agents: seq<Agent>, self: nat)
    requires self < |agents|
    ensures Proximity(NearestIn(agents, self, |agents|)) > 0.0 <==>
      exists j :: 0 <= j < |agents| && Candidate(agents, self, j) && Dist2(agents[self], agents[j]) < MAX_D2
  {
    NearestIsMinimum(agents, self, |agents|);
  }

  /** Food in a neighbouring cell, 0 where the neighbour would lie outside the grid. */
  function FoodAt(grid: seq<byte>, width: nat, height: nat, x: int, y: int): (f: real)
    requires |grid| == Area(width, height)
    ensures 0.0 <= f <= 255.0
    ensures !(0 <= x < width && 0 <= y < height) ==> f == 0.0
    ensures 0 <= x < width && 0 <= y < height ==> f == At(grid, width, height, x, y) as real
  {
    if 0 <= x < width && 0 <= y < height then At(grid, width, height, x, y) as real else 0.0
  }

  /** A pheromone level for the gradient: the neighbour's, or the centre's where the neighbour is missing. */
  function LevelOr(pher: seq<byte>, width: nat, height: nat, x: int, y: int, cx: int, cy: int): (level: byte)
    requires |pher| == Area(width, height)
    requires 0 <= cx < width && 0 <= cy < height
    ensures 0 <= x < width && 0 <= y < height ==> level == At(pher, width, height, x, y)
    ensures !(0 <= x < width && 0 <= y < height) ==> level == At(pher, width, height, cx, cy)
  {
    if 0 <= x < width && 0 <= y < height then At(pher, width, height, x, y) else At(pher, width, height, cx, cy)
  }

  /** `clamp((hi - lo) / 255, -1, 1)`; levels are bytes, so the clamp never bites. */
  function Gradient(hi: byte, lo: byte): (g: real)
    ensures -1.0 <= g <= 1.0
    ensures g == (hi as real - lo as real) / PHEROMONE_MAX
    ensures g == 0.0 <==> hi == lo
  {
    Clamp((hi as real - lo as real) / PHEROMONE_MAX, -1.0, 1.0)
  }

  /** `Math.min(ax / width, ay / height, (width - ax) / width, (height - ay) / height)`. */
  function WallDist(ax: int, ay: int, width: nat, height: nat): (d: real)
    requires 0 <= ax < width && 0 <= ay < height
    ensures 0.0 <= d <= 0.5
    ensures d == 0.0 <==> ax == 0 || ay == 0
  {
    var w, h := width as real, height as real;
    Fraction(ax as real, w);
    Fraction(ay as real, h);
    Min(Min(Min(ax as real / w, ay as real / h), (w - ax as real) / w), (h - ay as real) / h)
  }

  /** A part a of a whole w and its complement are fractions of w that add up to 1. */
  lemma Fraction(a: real, w: real)
    requires 0.0 <= a < w
    ensures 0.0 <= a / w <= 1.0 && 0.0 < (w - a) / w
    ensures a / w + (w - a) / w == 1.0
    ensures a / w == 0.0 <==> a == 0.0
  {
  }

  /** `clamp(agent.energy / MAX_ENERGY, 0, 1)`. */
  function EnergyLevel(energy: real): (e: real)
    ensures 0.0 <= e <= 1.0
    ensures 0.0 <= energy <= MAX_ENERGY ==> e == energy / MAX_ENERGY
  {
    Clamp(energy / MAX_ENERGY, 0.0, 1.0)
  }

  /** `0.5 + 0.5 * Math.sin((tick / OSC_PERIOD) * 2 pi)`, one period every OSC_PERIOD ticks. */
  function Oscillator(tick: real, sinTurns: real -> real): (o: real)
    ensures UnitRange(sinTurns) ==> 0.0 <= o <= 1.0
  {
    0.5 + 0.5 * sinTurns(tick / OSC_PERIOD)
  }

  /**
   * `sense(state, agent, { noiseFn })` for the agent at index self, with `noise` the value of
   * its one `noiseFn()` call. The entries are north, south, east, west, prox, p, gradX, gradY,
   * wallDist, energyN, osc, noise.
   */
  function Sensors(width: nat, height: nat, grid: seq<byte>, pher: seq<byte>, agents: seq<Agent>,
                   self: nat, tick: real, noise: real, sinTurns: real -> real): (r: seq<real>)
    requires |grid| == Area(width, height) && |pher| == Area(width, height)
    requires self < |agents| && InGrid(agents[self], width, height)
    ensures |r| == 12
    ensures forall k :: 0 <= k < 4 ==> 0.0 <= r[k] <= 255.0
    ensures agents[self].y.Floor == 0 ==> r[0] == 0.0
    ensures agents[self].y.Floor == height - 1 ==> r[1] == 0.0
    ensures agents[self].x.Floor == width - 1 ==> r[2] == 0.0
    ensures agents[self].x.Floor == 0 ==> r[3] == 0.0
    ensures forall k :: 4 <= k < 6 ==> 0.0 <= r[k] <= 1.0
    ensures -1.0 <= r[6] <= 1.0 && -1.0 <= r[7] <= 1.0
    ensures 0.0 <= r[8] <= 0.5
    ensures 0.0 <= r[9] <= 1.0
    ensures UnitRange(sinTurns) ==> 0.0 <= r[10] <= 1.0
    ensures r[11] == noise
  {
    var a := agents[self];
    CellInGrid(a, width, height);
    var ax, ay := a.x.Floor, a.y.Floor;
    var level := At(pher, width, height, ax, ay);
    [ FoodAt(grid, width, height, ax, ay - 1),
      FoodAt(grid, width, height, ax, ay + 1),
      FoodAt(grid, width, height, ax + 1, ay),
      FoodAt(grid, width, height, ax - 1, ay),
      Proximity(NearestIn(agents, self, |agents|)),
      level as real / PHEROMONE_MAX,
      Gradient(LevelOr(pher, width, height, ax + 1, ay, ax, ay), LevelOr(pher, width, height, ax - 1, ay, ax, ay)),
      Gradient(LevelOr(pher, width, height, ax, ay + 1, ax, ay), LevelOr(pher, width, height, ax, ay - 1, ax, ay)),
      WallDist(ax, ay, width, height),
      EnergyLevel(a.energy),
      Oscillator(tick, sinTurns),
      noise ]
  }

  /** The loop of `sense` over all agents: it keeps the smallest squared distance seen so far. */
  method NearestOther(agents: seq<Agent>, self: nat) returns (minDist2: Option<real>)
    requires self < |agents|
    ensures minDist2 == NearestIn(agents, self, |agents|)
  {
    var agent := agents[self];
    minDist2 := None;
    for j := 0 to |agents|
      invariant minDist2 == NearestIn(agents, self, j)
    {
      var other := agents[j];
      if j == self || !other.alive {
        continue;
      }
      var dx := other.x - agent.x;
      var dy := other.y - agent.y;
      var d2 := dx * dx + dy * dy;
      assert d2 == Dist2(agents[self], agents[j]);
      assert Candidate(agents, self, j);
      if minDist2.None? || d2 < minDist2.value {
        minDist2 := Some(d2);
      }
    }
  }

  /** The four food sensors of `sense`: north, south, east, west, 0 across the grid's edge. */
  method FoodSensors(grid: seq<byte>, width: nat, height: nat, ax: int, ay: int)
    returns (north: real, south: real, east: real, west: real)
    requires |grid| == Area(width, height) && 0 <= ax < width && 0 <= ay < height
    ensures north == FoodAt(grid, width, height, ax, ay - 1) && south == FoodAt(grid, width, height, ax, ay + 1)
    ensures east == FoodAt(grid, width, height, ax + 1, ay) && west == FoodAt(grid, width, height, ax - 1, ay)
  {
    north := if ay > 0 then At(grid, width, height, ax, ay - 1) as real else 0.0;
    south := if ay < height - 1 then At(grid, width, height, ax, ay + 1) as real else 0.0;
    west := if ax > 0 then At(grid, width, height, ax - 1, ay) as real else 0.0;
    east := if ax < width - 1 then At(grid, width, height, ax + 1, ay) as real else 0.0;
  }

  /** The pheromone sensors of `sense`: the level here and the two gradients. */
  method PheromoneSensors(pher: seq<byte>, width: nat, height: nat, ax: int, ay: int)
    returns (p: real, gradX: real, gradY: real)
    requires |pher| == Area(width, height) && 0 <= ax < width && 0 <= ay < height
    ensures p == At(pher, width, height, ax, ay) as real / PHEROMONE_MAX
    ensures gradX == Gradient(LevelOr(pher, width, height, ax + 1, ay, ax, ay), LevelOr(pher, width, height, ax - 1, ay, ax, ay))
    ensures gradY == Gradient(LevelOr(pher, width, height, ax, ay + 1, ax, ay), LevelOr(pher, width, height, ax, ay - 1, ax, ay))
  {
    var here := At(pher, width, height, ax, ay);
    p := here as real / PHEROMONE_MAX;
    var px1 := if ax < width - 1 then At(pher, width, height, ax + 1, ay) else here;
    var px0 := if ax > 0 then At(pher, width, height, ax - 1, ay) else here;
    var py1 := if ay < height - 1 then At(pher, width, height, ax, ay + 1) else here;
    var py0 := if ay > 0 then At(pher, width, height, ax, ay - 1) else here;
    gradX := Clamp((px1 as real - px0 as real) / PHEROMONE_MAX, -1.0, 1.0);
    gradY := Clamp((py1 as real - py0 as real) / PHEROMONE_MAX, -1.0, 1.0);
  }

  /** `sense(state, agent, { noiseFn })`, with the state's buffers, agents and tick passed in. */
  method Sense(width: nat, height: nat, grid: seq<byte>, pher: seq<byte>, agents: seq<Agent>,
               self: nat, tick: real, noise: real, sinTurns: real -> real) returns (inputs: seq<real>)
    requires |grid| == Area(width, height) && |pher| == Area(width, height)
    requires self < |agents| && InGrid(agents[self], width, height)
    ensures inputs == Sensors(width, height, grid, pher, agents, self, tick, noise, sinTurns)
  {
    var agent := agents[self];
    CellInGrid(agent, width, height);
    var ax, ay := agent.x.Floor, agent.y.Floor;
    var north, south, east, west := FoodSensors(grid, width, height, ax, ay);

    var minDist2 := NearestOther(agents, self);
    var prox := 0.0;
    if minDist2.Some? {
      prox := Clamp(1.0 - minDist2.value / MAX_D2, 0.0, 1.0);
    }
    assert prox == Proximity(NearestIn(agents, self, |agents|));

    var p, gradX, gradY := PheromoneSensors(pher, width, height, ax, ay);
    var wallDist := WallDist(ax, ay, width, height);
    var energyN := Clamp(agent.energy / MAX_ENERGY, 0.0, 1.0);
    var osc := 0.5 + 0.5 * sinTurns(tick / OSC_PERIOD);
    inputs := [north, south, east, west, prox, p, gradX, gradY, wallDist, energyN, osc, noise];
  }

  /**
   * The scene of tests/sense.test.js on a 5 x 5 grid: the agent at (2.5, 2.5), another one cell
   * east, food north and east, pheromone 50 / 100 / 200 west / centre / east, tick a quarter period.
   */
  const SceneGrid: seq<byte> := seq(25, i => if i == 7 || i == 13 then 1 else 0)
  const ScenePheromone: seq<byte> := seq(25, i => if i == 11 then 50 else if i == 12 then 100 else if i == 13 then 200 else 0)

  lemma SenseScene(brain: Controller.Brain, sinTurns: real -> real)
    requires sinTurns(0.25) == 1.0
    ensures var agents := [Agent(2.5, 2.5, 60.0, brain, 0.0, true), Agent(3.5, 2.5, 60.0, brain, 0.0, true)];
      var r := Sensors(5, 5, SceneGrid, ScenePheromone, agents, 0, 5.0, 0.42, sinTurns);
      && r[0] == 1.0 && r[2] == 1.0
      && r[4] == 0.96
      && r[6] == (200.0 - 50.0) / 255.0 && r[7] == 0.0
      && r[8] == 0.4 && r[9] == 0.5 && r[10] == 1.0 && r[11] == 0.42
  {
    var agents := [Agent(2.5, 2.5, 60.0, brain, 0.0, true), Agent(3.5, 2.5, 60.0, brain, 0.0, true)];
    assert Area(5, 5) == 25;
    assert Idx(5, 2, 1) == 7 && Idx(5, 3, 2) == 13 && Idx(5, 1, 2) == 11 && Idx(5, 2, 2) == 12;
    assert Idx(5, 2, 3) == 17;
    assert (2.5).Floor == 2;
    assert NearestIn(agents, 0, 2) == Some(1.0);
  }
}
