/**
 * The simulation state of matrix-evolution/sim-core.js (`createState`, lines 25-42) and the
 * operations that update it in place: `stepLife`, `decayPheromone`, `seedFood`, `initAgents`
 * and `updateAgents`. Each is proved against the value-level definitions of its module.
 */
module SimCore {
  import opened SimBase
  import opened Life
  import opened Pheromone
  import opened Controller
  import opened Agents
  import opened Sensorium
  import opened Lifecycle

  class State {
    const width: nat
    const height: nat
    const simSpeed: real
    const targetFoodDensity: real
    /** The current food generation; `stepLife` swaps it with `nextGrid`. */
    var grid: array<byte>
    var nextGrid: array<byte>
    var pheromone: array<byte>
    var agents: seq<Agent>
    var tick: real

    /** Three distinct buffers of `width * height` cells. */
    predicate Valid()
      reads this
    {
      && grid.Length == Area(width, height)
      && nextGrid.Length == Area(width, height)
      && pheromone.Length == Area(width, height)
      && grid != nextGrid && grid != pheromone && nextGrid != pheromone
    }

    /** `createState({ width, height, simSpeed, targetFoodDensity })`: empty buffers, no agents, tick 0. */
    constructor(width: nat, height: nat, simSpeed: real, targetFoodDensity: real)
      ensures Valid()
      ensures this.width == width && this.height == height
      ensures this.simSpeed == simSpeed && this.targetFoodDensity == targetFoodDensity
      ensures grid.Length == width * height
      ensures fresh(grid) && fresh(nextGrid) && fresh(pheromone)
      ensures forall i :: 0 <= i < grid.Length ==> grid[i] == 0 && nextGrid[i] == 0 && pheromone[i] == 0
      ensures agents == [] && tick == 0.0
    {
      this.width := width;
      this.height := height;
      this.simSpeed := simSpeed;
      this.targetFoodDensity := targetFoodDensity;
      var n := Area(width, height);
      MulIsProduct(height, width);
      grid := new byte[n](_ => 0);
      nextGrid := new byte[n](_ => 0);
      pheromone := new byte[n](_ => 0);
      agents := [];
      tick := 0.0;
    }

    /** `createState()` with its defaults: 72 x 48, simSpeed 1, targetFoodDensity 0.22. */
    static method CreateDefault() returns (s: State)
      ensures s.Valid() && fresh(s)
      ensures s.width == GRID_W && s.height == GRID_H && s.simSpeed == 1.0 && s.targetFoodDensity == 0.22
      ensures s.agents == [] && s.tick == 0.0
    {
      s := new State(GRID_W, GRID_H, 1.0, 0.22);
    }

    /** The neighbour count of `stepLife` for cell (x, y): the 3 x 3 scan with the centre skipped. */
    method CountNeighbours(x: int, y: int) returns (count: nat)
      requires Valid()
      ensures count == LiveNeighbours(grid[..], width, height, x, y)
    {
      ghost var g := grid[..];
      count := 0;
      for dy := -1 to 2
        invariant count == BlockCount(g, width, height, x, y, dy)
      {
        for dx := -1 to 2
          invariant count == BlockCount(g, width, height, x, y, dy) + RowCount(g, width, height, x, y, dy, dx)
        {
          if dx == 0 && dy == 0 {
            continue;
          }
          var nx, ny := x + dx, y + dy;
          if nx < 0 || nx >= width || ny < 0 || ny >= height {
            continue;
          }
          IdxInGrid(width, height, nx, ny);
          count := count + if grid[Idx(width, nx, ny)] != 0 then 1 else 0;
        }
      }
    }

    /**
     * `stepLife(state, { randomFn })`: fills `nextGrid` with the next generation, then swaps the
     * two buffers. Returns how many draws of `randomFn` it took.
     */
    method StepLife(randomFn: Stream) returns (draws: nat)
      requires Valid()
      modifies this, nextGrid
      ensures Valid()
      ensures grid == old(nextGrid) && nextGrid == old(grid)
      ensures grid[..] == NextGrid(old(grid[..]), width, height, targetFoodDensity, randomFn)
      ensures nextGrid[..] == old(grid[..])
      ensures draws == DrawsBefore(old(grid[..]), width, height, height)
      ensures pheromone == old(pheromone) && agents == old(agents) && tick == old(tick)
    {
      draws := FillNext(randomFn);
      grid, nextGrid := nextGrid, grid;
    }

    /** The scan of `stepLife`: rows top to bottom, writing `nextGrid` and reading only `grid`. */
    method FillNext(randomFn: Stream) returns (draws: nat)
      requires Valid()
      modifies nextGrid
      ensures nextGrid[..] == NextGrid(grid[..], width, height, targetFoodDensity, randomFn)
      ensures draws == DrawsBefore(grid[..], width, height, height)
    {
      ghost var g := grid[..];
      draws := 0;
      for y := 0 to height
        invariant grid[..] == g
        invariant draws == DrawsBefore(g, width, height, y)
        invariant Mul(y, width) <= nextGrid.Length
        invariant nextGrid[..Mul(y, width)] == NextRows(g, width, height, y, targetFoodDensity, randomFn)
      {
        MulRowsBefore(y, height, width);
        draws := FillRow(y, randomFn, draws);
        DrawsBeforeStep(g, width, height, y);
        NextRowsExtend(g, width, height, y, targetFoodDensity, randomFn, nextGrid[..]);
      }
      assert nextGrid[..] == nextGrid[..Mul(height, width)];
    }

    /** Row y of the scan: one cell after another, left to right. */
    method FillRow(y: nat, randomFn: Stream, drawsIn: nat) returns (draws: nat)
      requires Valid() && y < height
      requires drawsIn == DrawsBefore(grid[..], width, height, y)
      requires Mul(y, width) + width <= nextGrid.Length
      modifies nextGrid
      ensures draws == drawsIn + DrawsInRow(grid[..], width, height, y, width)
      ensures nextGrid[..Mul(y, width)] == old(nextGrid[..Mul(y, width)])
      ensures nextGrid[Mul(y, width)..Mul(y, width) + width] == NextRow(grid[..], width, height, y, targetFoodDensity, randomFn)
    {
      ghost var g := grid[..];
      var start := Mul(y, width);
      draws := drawsIn;
      for x := 0 to width
        invariant grid[..] == g
        invariant draws == drawsIn + DrawsInRow(g, width, height, y, x)
        invariant nextGrid[..start] == old(nextGrid[..start])
        invariant forall k :: 0 <= k < x ==> nextGrid[start + k] == LifeCell(g, width, height, k, y, targetFoodDensity, randomFn)
      {
        draws := FillCell(start, x, y, randomFn, drawsIn, draws);
      }
      NextRowFromCells(g, width, height, y, targetFoodDensity, randomFn, nextGrid[..], start);
    }

    /** Cell x of row y of the scan, written to `nextGrid[start + x]`; no other cell changes. */
    method FillCell(start: nat, x: nat, y: nat, randomFn: Stream, rowDraws: nat, drawsIn: nat) returns (draws: nat)
      requires Valid() && x < width && y < height
      requires start == Mul(y, width) && start + width <= nextGrid.Length
      requires rowDraws == DrawsBefore(grid[..], width, height, y)
      requires drawsIn == rowDraws + DrawsInRow(grid[..], width, height, y, x)
      modifies nextGrid
      ensures draws == rowDraws + DrawsInRow(grid[..], width, height, y, x + 1)
      ensures nextGrid[start + x] == LifeCell(grid[..], width, height, x, y, targetFoodDensity, randomFn)
      ensures forall k :: 0 <= k < nextGrid.Length && k != start + x ==> nextGrid[k] == old(nextGrid[k])
    {
      var next;
      DrawsInRowStep(grid[..], width, height, y, x);
      next, draws := NextCell(x, y, randomFn, drawsIn);
      nextGrid[start + x] := next;
    }

    /**
     * One cell of the scan: the B3/S23 rule on `grid`, and only when it leaves the cell dead one
     * draw `randomFn() < targetFoodDensity * 0.0025` for regrowth.
     */
    method NextCell(x: nat, y: nat, randomFn: Stream, drawsIn: nat) returns (next: byte, draws: nat)
      requires Valid() && x < width && y < height
      requires drawsIn == DrawIndex(grid[..], width, height, x, y)
      ensures next == LifeCell(grid[..], width, height, x, y, targetFoodDensity, randomFn)
      ensures draws == drawsIn + if RuleAlive(grid[..], width, height, x, y) then 0 else 1
    {
      var count := CountNeighbours(x, y);
      IdxInGrid(width, height, x, y);
      var alive := grid[Idx(width, x, y)] == 1;
      next := 0;
      if alive && (count == 2 || count == 3) {
        next := 1;
      } else if !alive && count == 3 {
        next := 1;
      }
      draws := drawsIn;
      if next == 0 {
        if randomFn(draws) < targetFoodDensity * 0.0025 {
          next := 1;
        }
        draws := draws + 1;
      }
    }

    /** `decayPheromone(state)`: every cell decays by one step, in place. */
    method DecayPheromone()
      requires Valid()
      modifies pheromone
      ensures pheromone[..] == DecayAll(old(pheromone[..]))
    {
      for i := 0 to pheromone.Length
        invariant forall k :: 0 <= k < i ==> pheromone[k] == Decayed(old(pheromone[k]))
        invariant forall k :: i <= k < pheromone.Length ==> pheromone[k] == old(pheromone[k])
      {
        var v := pheromone[i];
        pheromone[i] := if v > PHEROMONE_DECAY then v - PHEROMONE_DECAY else 0;
      }
    }

    /**
     * `seedFood(state, density, rng)`: each cell in index order is food when its draw is below the
     * density; returns the draws taken, one per cell.
     */
    method SeedFood(density: real, rng: Stream) returns (draws: nat)
      requires Valid()
      modifies grid
      ensures grid[..] == Seeded(grid.Length, density, rng)
      ensures draws == grid.Length
    {
      draws := grid.Length;
      for i := 0 to grid.Length
        invariant forall k :: 0 <= k < i ==> grid[k] == if rng(k) < density then 1 else 0
      {
        grid[i] := if rng(i) < density then 1 else 0;
      }
    }
  
    /** `initAgents(state, count, rng)`: replaces the agents by `count` fresh ones; returns the draws taken. */
    method InitAgents(count: nat, rng: Stream, sqrt: real -> real) returns (draws: nat)
      modifies this
      ensures agents == Spawned(width, height, rng, sqrt, count)
      ensures draws == Mul(count, AGENT_DRAWS)
      ensures grid == old(grid) && nextGrid == old(nextGrid) && pheromone == old(pheromone) && tick == old(tick)
    {
      agents := [];
      draws := 0;
      for i := 0 to count
        invariant agents == Spawned(width, height, rng, sqrt, i)
        invariant draws == Mul(i, AGENT_DRAWS)
        invariant grid == old(grid) && nextGrid == old(nextGrid) && pheromone == old(pheromone) && tick == old(tick)
      {
        var agent, used := CreateAgent(width, height, rng, draws, sqrt);
        agents := agents + [agent];
        draws := draws + used;
      }
    }

    /** The parameters of one `updateAgents` call, with this state's fixed fields and tick. */
    function Settings(delta: real, noise: Stream, rng: Stream, ctl: Decider, m: Maths): Config
      reads this
    {
      Config(width, height, simSpeed, tick, delta, noise, rng, ctl, m)
    }

    /** The part of the state a pass changes, with the draw counters of the two sources. */
    function Snapshot(noiseUsed: nat, rngUsed: nat): World
      reads this, grid, pheromone
    {
      World(grid[..], pheromone[..], agents, noiseUsed, rngUsed)
    }

    /**
     * `updateAgents(state, delta, { noiseFn, rng, decide })`: the turns of all agents in list
     * order, on the state itself. Returns how many draws it took from `noiseFn` and from `rng`.
     */
    method UpdateAgents(delta: real, noise: Stream, rng: Stream, ctl: Decider, m: Maths) returns (noiseUsed: nat, rngUsed: nat)
      requires Valid()
      requires Admissible(Settings(delta, noise, rng, ctl, m))
      requires Consistent(Settings(delta, noise, rng, ctl, m), Snapshot(0, 0))
      modifies this, grid, pheromone
      ensures Valid()
      ensures grid == old(grid) && nextGrid == old(nextGrid) && pheromone == old(pheromone) && tick == old(tick)
      ensures Snapshot(noiseUsed, rngUsed) == Pass(Settings(delta, noise, rng, ctl, m), old(Snapshot(0, 0)))
    {
      ghost var cfg := Settings(delta, noise, rng, ctl, m);
      ghost var w0 := Snapshot(0, 0);
      noiseUsed, rngUsed := 0, 0;
      for k := 0 to |agents|
        invariant Valid()
        invariant grid == old(grid) && nextGrid == old(nextGrid) && pheromone == old(pheromone) && tick == old(tick)
        invariant Snapshot(noiseUsed, rngUsed) == RunTurns(cfg, w0, k)
      {
        noiseUsed, rngUsed := TakeTurn(k, delta, noise, rng, ctl, m, noiseUsed, rngUsed);
      }
    }

    /** The body of `updateAgents`' loop for agent k. */
    method TakeTurn(k: nat, delta: real, noise: Stream, rng: Stream, ctl: Decider, m: Maths, noiseUsed: nat, rngUsed: nat)
      returns (noiseNext: nat, rngNext: nat)
      requires Valid() && k < |agents|
      requires Admissible(Settings(delta, noise, rng, ctl, m))
      requires Consistent(Settings(delta, noise, rng, ctl, m), Snapshot(noiseUsed, rngUsed))
      modifies this, grid, pheromone
      ensures Valid()
      ensures grid == old(grid) && nextGrid == old(nextGrid) && pheromone == old(pheromone) && tick == old(tick)
      ensures Snapshot(noiseNext, rngNext) == Turn(Settings(delta, noise, rng, ctl, m), old(Snapshot(noiseUsed, rngUsed)), k)
    {
      ghost var cfg := Settings(delta, noise, rng, ctl, m);
      ghost var w := Snapshot(noiseUsed, rngUsed);
      noiseNext, rngNext := noiseUsed, rngUsed;
      var agent := agents[k];
      if !agent.alive {
        return;
      }
      agent := agent.(age := agent.age + delta);
      agents := agents[k := agent];
      var outputs := Decide(agent, k, delta, noise, rng, ctl, m, noiseUsed, rngUsed, w);
      var x := MoveCoord(agent.x, outputs[0], delta, width);
      var y := MoveCoord(agent.y, outputs[1], delta, height);
      agent := agent.(x := x, y := y);
      assert agent == Walked(cfg, Aged(cfg, w.agents[k]), outputs);
      noiseNext, rngNext := SettleTurn(cfg, w, k, agent, outputs, delta, rng, m, noiseUsed, rngUsed);
    }

    /** Eating, emitting, metabolism and respawning for agent k, which has moved to `agent`. */
    method SettleTurn(ghost cfg: Config, ghost w: World, k: nat, agent: Agent, outputs: seq<real>,
                      delta: real, rng: Stream, m: Maths, noiseUsed: nat, rngUsed: nat)
      returns (noiseNext: nat, rngNext: nat)
      requires Valid() && Admissible(cfg) && Consistent(cfg, w) && k < |w.agents|
      requires cfg.width == width && cfg.height == height && cfg.simSpeed == simSpeed
      requires cfg.delta == delta && cfg.rng == rng && cfg.m == m
      requires w.noiseUsed == noiseUsed && w.rngUsed == rngUsed
      requires grid[..] == w.grid && pheromone[..] == w.pheromone
      requires |agents| == |w.agents| && forall j :: 0 <= j < |agents| && j != k ==> agents[j] == w.agents[j]
      requires InGrid(agent, width, height) && agent.alive && OUTPUTS <= |outputs|
      requires cfg.ctl.Network? ==> Fits(agent.brain, INPUTS)
      modifies this, grid, pheromone
      ensures Valid()
      ensures grid == old(grid) && nextGrid == old(nextGrid) && pheromone == old(pheromone) && tick == old(tick)
      ensures Snapshot(noiseNext, rngNext) == Settle(cfg, w, k, agent, outputs)
    {
      CellInGrid(agent, width, height);
      var cellX, cellY := agent.x.Floor, agent.y.Floor;
      IdxInGrid(width, height, cellX, cellY);
      var cell := Idx(width, cellX, cellY);
      var e1 := Eat(cfg, w, agent, outputs, cell);
      var energy := Emit(cfg, w, agent, outputs, cell, e1);
      energy := energy - ENERGY_DECAY * delta * simSpeed;
      assert energy == (if Emits(outputs[3], e1) then e1 - EMIT_COST else e1) - Drain(cfg);
      assert grid[..] == GridAfter(cfg, w, agent, outputs);
      assert pheromone[..] == PheromoneAfter(cfg, w, agent, outputs, e1);
      noiseNext := noiseUsed + 1;
      if energy <= 0.0 {
        var newborn, used := CreateAgent(width, height, rng, rngUsed, m.sqrt);
        agents := agents[k := newborn];
        rngNext := rngUsed + used;
        assert agents == w.agents[k := newborn];
      } else {
        agents := agents[k := agent.(energy := energy)];
        rngNext := rngUsed;
        assert agents == w.agents[k := agent.(energy := energy)];
      }
    }

    /** Eating: clears food on the agent's cell when out[2] > 0.5; returns the energy after it. */
    method Eat(ghost cfg: Config, ghost w: World, agent: Agent, outputs: seq<real>, cell: int) returns (energy: real)
      requires Valid() && cfg.width == width && cfg.height == height
      requires Consistent(cfg, w) && InGrid(agent, width, height) && OUTPUTS <= |outputs|
      requires grid[..] == w.grid
      requires cell == Idx(width, agent.x.Floor, agent.y.Floor) && 0 <= cell < grid.Length
      modifies grid
      ensures grid[..] == GridAfter(cfg, w, agent, outputs)
      ensures energy == EnergyAfterEating(cfg, w, agent, outputs)
    {
      energy := agent.energy;
      if outputs[2] > 0.5 && grid[cell] == 1 {
        grid[cell] := 0;
        energy := Min(MAX_ENERGY, energy + EAT_GAIN);
      }
    }

    /** Emitting: marks the agent's cell with 255 when out[3] > 0.5 and it can pay; returns the energy after it. */
    method Emit(ghost cfg: Config, ghost w: World, agent: Agent, outputs: seq<real>, cell: int, e1: real) returns (energy: real)
      requires Valid() && cfg.width == width && cfg.height == height
      requires Consistent(cfg, w) && InGrid(agent, width, height) && OUTPUTS <= |outputs|
      requires pheromone[..] == w.pheromone
      requires cell == Idx(width, agent.x.Floor, agent.y.Floor) && 0 <= cell < pheromone.Length
      modifies pheromone
      ensures pheromone[..] == PheromoneAfter(cfg, w, agent, outputs, e1)
      ensures energy == if Emits(outputs[3], e1) then e1 - EMIT_COST else e1
    {
      energy := e1;
      if outputs[3] > 0.5 && energy > EMIT_COST + 1.0 {
        pheromone[cell] := 255;
        energy := energy - EMIT_COST;
      }
    }

    /** `sense` then `decide` or `feedForward` for agent k, already aged; changes nothing. */
    method Decide(agent: Agent, k: nat, delta: real, noise: Stream, rng: Stream, ctl: Decider, m: Maths,
                  noiseUsed: nat, rngUsed: nat, ghost w: World) returns (outputs: seq<real>)
      requires Valid() && k < |agents| && k < |w.agents|
      requires Admissible(Settings(delta, noise, rng, ctl, m))
      requires w == Snapshot(noiseUsed, rngUsed).(agents := w.agents)
      requires Consistent(Settings(delta, noise, rng, ctl, m), w) && w.agents[k].alive
      requires agents == w.agents[k := agent] && agent == Aged(Settings(delta, noise, rng, ctl, m), w.agents[k])
      ensures outputs == Outputs(Settings(delta, noise, rng, ctl, m), w, k)
    {
      var inputs := Sense(width, height, grid[..], pheromone[..], agents, k, tick, noise(noiseUsed), m.sinTurns);
      if ctl.Network? {
        outputs := FeedForward(agent.brain, inputs, m.tanh);
      } else {
        outputs := ctl.f(agent, inputs);
      }
    }
  }
}
