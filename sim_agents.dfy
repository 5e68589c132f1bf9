/**
 * Agents of matrix-evolution/sim-core.js: the agent record and `createAgent` (lines 54-63),
 * which places a fresh agent on a random cell centre with random energy and a random brain.
 */
module Agents {
  import opened SimBase
  import opened Controller

  /** `{ x, y, energy, brain, age, alive }`: a position in cell units, energy, a controller, an age. */
  datatype Agent = Agent(x: real, y: real, energy: real, brain: Brain, age: real, alive: bool)

  /** Every agent gets `makeBrain(8, rng)`. */
  const HIDDEN_SIZE: nat := 8

  /** Fresh agents start with an energy in [MAX_ENERGY * 0.6, MAX_ENERGY). */
  const SPAWN_ENERGY_MIN: real := MAX_ENERGY * 0.6

  /** Draws one `createAgent` takes: x, y, energy, then the brain's weights. */
  const AGENT_DRAWS: nat := 131

  lemma AgentDrawCount()
    ensures AGENT_DRAWS == 3 + BrainDraws(HIDDEN_SIZE)
  {
    assert Mul(HIDDEN_SIZE, INPUTS) == 96;
    assert Mul(OUTPUTS, HIDDEN_SIZE) == 32;
  }

  /** The agent stands on the grid: the cell `(floor x, floor y)` that `sense` reads exists. */
  predicate InGrid(a: Agent, width: nat, height: nat) {
    0.0 <= a.x < width as real && 0.0 <= a.y < height as real
  }

  /** The cell an agent stands on, `Math.floor(agent.x)` and `Math.floor(agent.y)`. */
  lemma CellInGrid(a: Agent, width: nat, height: nat)
    requires InGrid(a, width, height)
    ensures 0 <= a.x.Floor < width && 0 <= a.y.Floor < height
  {
  }

  /** `Math.floor(u * n) + 0.5`: the centre of a cell chosen by a draw u. */
  function CellCentre(u: real, n: nat): (c: real)
    ensures 0.0 <= u < 1.0 && 1 <= n ==> 0.5 <= c <= n as real - 0.5
    ensures c - 0.5 == (c - 0.5).Floor as real
  {
    var scaled := u * n as real;
    var cell := scaled.Floor;
    if 0.0 <= u < 1.0 && 1 <= n then
      assert 0.0 < n as real;
      ScaleByUnit(u, n as real);
      assert 0.0 <= scaled < n as real;
      assert 0 <= cell < n;
      cell as real + 0.5
    else
      cell as real + 0.5
  }

  /** The agent `createAgent(state, rng)` builds from the draws at, at + 1, .... */
  function FreshAgent(width: nat, height: nat, rng: Stream, at: nat, sqrt: real -> real): (a: Agent)
    ensures a.alive && a.age == 0.0
    ensures a.energy == RandomFloat(rng(at + 2), SPAWN_ENERGY_MIN, MAX_ENERGY)
    ensures a.brain.hiddenSize == HIDDEN_SIZE
  {
    Agent(CellCentre(rng(at), width),
          CellCentre(rng(at + 1), height),
          RandomFloat(rng(at + 2), SPAWN_ENERGY_MIN, MAX_ENERGY),
          BrainFrom(HIDDEN_SIZE, rng, at + 3, sqrt),
          0.0,
          true)
  }

  /** A fresh agent is alive, on the grid, and has a brain for the 12-input sensor vector. */
  lemma FreshAgentPlaced(width: nat, height: nat, rng: Stream, at: nat, sqrt: real -> real)
    requires UnitStream(rng) && 1 <= width && 1 <= height
    ensures var a := FreshAgent(width, height, rng, at, sqrt);
      a.alive && InGrid(a, width, height) && Fits(a.brain, INPUTS)
  {
    assert 0.0 <= rng(at) < 1.0 && 0.0 <= rng(at + 1) < 1.0;
    BrainFromShape(HIDDEN_SIZE, rng, at + 3, sqrt);
  }

  /**
   * A fresh agent is alive and young, stands on a cell centre inside the grid, has an energy in
   * [72, 120) and a brain for the 12-input sensor vector whose weights lie within their scales.
   */
  lemma FreshAgentValid(width: nat, height: nat, rng: Stream, at: nat, sqrt: real -> real)
    requires UnitStream(rng) && 1 <= width && 1 <= height
    requires forall v :: 0.0 <= v ==> 0.0 <= sqrt(v)
    ensures var a := FreshAgent(width, height, rng, at, sqrt);
      && a.alive && a.age == 0.0
      && InGrid(a, width, height)
      && 0.5 <= a.x <= width as real - 0.5 && 0.5 <= a.y <= height as real - 0.5
      && SPAWN_ENERGY_MIN <= a.energy < MAX_ENERGY
      && a.brain.hiddenSize == HIDDEN_SIZE && Fits(a.brain, INPUTS)
      && (forall i :: 0 <= i < |a.brain.w1| ==> -Scale1(sqrt) <= a.brain.w1[i] <= Scale1(sqrt))
      && (forall i :: 0 <= i < |a.brain.w2| ==> -Scale2(HIDDEN_SIZE, sqrt) <= a.brain.w2[i] <= Scale2(HIDDEN_SIZE, sqrt))
  {
    assert 0.0 <= rng(at) < 1.0 && 0.0 <= rng(at + 1) < 1.0 && 0.0 <= rng(at + 2) < 1.0;
    BrainFromShape(HIDDEN_SIZE, rng, at + 3, sqrt);
  }

  /** With every draw 0.5 on a 5 x 5 grid the agent stands at (2.5, 2.5) with energy 96. */
  lemma HalfDrawAgent(rng: Stream, at: nat, sqrt: real -> real)
    requires forall n :: rng(n) == 0.5
    ensures var a := FreshAgent(5, 5, rng, at, sqrt);
      a.x == 2.5 && a.y == 2.5 && a.energy == 96.0
  {
    assert rng(at) == 0.5 && rng(at + 1) == 0.5 && rng(at + 2) == 0.5;
    assert (0.5 * 5.0).Floor == 2;
  }

  /** `createAgent(state, rng)`: returns the agent and the number of draws it took. */
  method CreateAgent(width: nat, height: nat, rng: Stream, at: nat, sqrt: real -> real)
    returns (agent: Agent, used: nat)
    ensures agent == FreshAgent(width, height, rng, at, sqrt)
    ensures used == AGENT_DRAWS
  {
    var x := (rng(at) * width as real).Floor as real + 0.5;
    var y := (rng(at + 1) * height as real).Floor as real + 0.5;
    var energy := RandomFloat(rng(at + 2), SPAWN_ENERGY_MIN, MAX_ENERGY);
    var brain := MakeBrain(HIDDEN_SIZE, rng, at + 3, sqrt);
    agent := Agent(x, y, energy, brain, 0.0, true);
    AgentDrawCount();
    used := 3 + BrainDraws(HIDDEN_SIZE);
  }

  /** The agents `initAgents(state, count, rng)` pushes, each from the next AGENT_DRAWS draws. */
  function Spawned(width: nat, height: nat, rng: Stream, sqrt: real -> real, count: nat): (r: seq<Agent>)
    ensures |r| == count
    decreases count
  {
    if count == 0 then []
    else Spawned(width, height, rng, sqrt, count - 1) + [FreshAgent(width, height, rng, Mul(count - 1, AGENT_DRAWS), sqrt)]
  }

  /** Agent i of the initial population is built from draws i * 131 onward, so it is a valid fresh agent. */
  lemma {:induction false} SpawnedAgents(width: nat, height: nat, rng: Stream, sqrt: real -> real, count: nat)
    ensures forall i :: 0 <= i < count ==>
      Spawned(width, height, rng, sqrt, count)[i] == FreshAgent(width, height, rng, Mul(i, AGENT_DRAWS), sqrt)
    decreases count
  {
    if count > 0 {
      SpawnedAgents(width, height, rng, sqrt, count - 1);
    }
  }

  /** With draws in [0, 1) the whole initial population is alive, on the grid and has energy in [72, 120). */
  lemma SpawnedValid(width: nat, height: nat, rng: Stream, sqrt: real -> real, count: nat)
    requires UnitStream(rng) && 1 <= width && 1 <= height
    requires forall v :: 0.0 <= v ==> 0.0 <= sqrt(v)
    ensures forall i :: 0 <= i < count ==>
      var a := Spawned(width, height, rng, sqrt, count)[i];
      a.alive && InGrid(a, width, height) && SPAWN_ENERGY_MIN <= a.energy < MAX_ENERGY && Fits(a.brain, INPUTS)
  {
    SpawnedAgents(width, height, rng, sqrt, count);
    forall i | 0 <= i < count
      ensures var a := Spawned(width, height, rng, sqrt, count)[i];
        a.alive && InGrid(a, width, height) && SPAWN_ENERGY_MIN <= a.energy < MAX_ENERGY && Fits(a.brain, INPUTS)
    {
      FreshAgentValid(width, height, rng, Mul(i, AGENT_DRAWS), sqrt);
    }
  }
}
