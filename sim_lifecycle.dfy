/**
 * One pass of `updateAgents` (matrix-evolution/sim-core.js:183-219) on values: every live agent
 * in list order ages, senses, decides, moves, may eat and emit, pays its metabolism and, when
 * its energy runs out, is replaced in place by a fresh agent. Later agents see the effects of
 * earlier ones, because each turn starts from the world the previous turn left.
 */
module Lifecycle {
  import opened SimBase
  import opened Controller
  import opened Agents
  import opened Sensorium

  /** `decide ? decide(agent, inputs) : feedForward(agent, inputs)`. */
  datatype Decider = Network | Decide(f: (Agent, seq<real>) -> seq<real>)

  /** An injected `decide` must return the four action values the pass reads. */
  ghost predicate Decisive(ctl: Decider) {
    ctl.Decide? ==> forall a: Agent, inputs: seq<real> :: OUTPUTS <= |ctl.f(a, inputs)|
  }

  /**
   * The parameters of one call `updateAgents(state, delta, { noiseFn, rng, decide })`: the
   * state's fixed fields, the two random sources as streams, the controller and the
   * transcendental functions.
   */
  datatype Config = Config(width: nat, height: nat, simSpeed: real, tick: real, delta: real,
                           noise: Stream, rng: Stream, ctl: Decider, m: Maths)

  /** The hypotheses the pass relies on: a non-empty grid, draws in [0, 1), a decisive controller. */
  ghost predicate Admissible(cfg: Config) {
    1 <= cfg.width && 1 <= cfg.height && UnitStream(cfg.rng) && Decisive(cfg.ctl)
  }

  /** What a pass changes: food, pheromone, agents, and how many draws each source has given. */
  datatype World = World(grid: seq<byte>, pheromone: seq<byte>, agents: seq<Agent>, noiseUsed: nat, rngUsed: nat)

  /** Buffers of the grid's size; every live agent on the grid, with a brain when the network decides. */
  predicate Consistent(cfg: Config, w: World) {
    && |w.grid| == Area(cfg.width, cfg.height)
    && |w.pheromone| == Area(cfg.width, cfg.height)
    && (forall j :: 0 <= j < |w.agents| && w.agents[j].alive ==> InGrid(w.agents[j], cfg.width, cfg.height))
    && (cfg.ctl.Network? ==> forall j :: 0 <= j < |w.agents| && w.agents[j].alive ==> Fits(w.agents[j].brain, INPUTS))
  }

  /** The action vector of an agent for its inputs. */
  function Act(cfg: Config, a: Agent, inputs: seq<real>): (out: seq<real>)
    requires Decisive(cfg.ctl)
    requires cfg.ctl.Network? ==> Fits(a.brain, |inputs|)
    ensures OUTPUTS <= |out|
    ensures cfg.ctl.Network? && UnitRange(cfg.m.tanh) ==> forall o :: 0 <= o < |out| ==> -1.0 <= out[o] <= 1.0
  {
    match cfg.ctl
    case Network => Forward(a.brain, inputs, cfg.m.tanh)
    case Decide(f) => f(a, inputs)
  }

  /** One coordinate after a move: `clamp(p + out * 0.6 * delta, 0.25, size - 0.25)`. */
  function MoveCoord(p: real, out: real, delta: real, size: nat): (q: real)
    ensures 1 <= size ==> 0.25 <= q <= size as real - 0.25
    ensures 1 <= size ==> 0 <= q.Floor < size
  {
    Clamp(p + out * (0.6 * delta), 0.25, size as real - 0.25)
  }

  /** `ENERGY_DECAY * delta * simSpeed`, the metabolic cost of one turn: no gain for non-negative delta and speed. */
  function Drain(cfg: Config): (cost: real)
    ensures 0.0 <= cfg.delta && 0.0 <= cfg.simSpeed ==> 0.0 <= cost
    ensures cfg.delta == 0.0 || cfg.simSpeed == 0.0 ==> cost == 0.0
  {
    assert 0.0 <= cfg.delta ==> 0.0 <= ENERGY_DECAY * cfg.delta;
    ENERGY_DECAY * cfg.delta * cfg.simSpeed
  }

  /** Eating: only food (a cell holding exactly 1) on the agent's cell, and only when out[2] > 0.5. */
  predicate Eats(out2: real, grid: seq<byte>, width: nat, height: nat, cx: int, cy: int)
    requires |grid| == Area(width, height) && 0 <= cx < width && 0 <= cy < height
    ensures out2 <= 0.5 ==> !Eats(out2, grid, width, height, cx, cy)
    ensures At(grid, width, height, cx, cy) != 1 ==> !Eats(out2, grid, width, height, cx, cy)
  {
    out2 > 0.5 && At(grid, width, height, cx, cy) == 1
  }

  /** Emitting: when out[3] > 0.5 and the agent can pay more than EMIT_COST + 1. */
  predicate Emits(out3: real, energy: real)
    ensures Emits(out3, energy) ==> energy - EMIT_COST > 1.0
    ensures out3 <= 0.5 ==> !Emits(out3, energy)
  {
    out3 > 0.5 && energy > EMIT_COST + 1.0
  }

  /** `Math.min(MAX_ENERGY, energy + EAT_GAIN)`. */
  function Fed(energy: real): (e: real)
    ensures e <= MAX_ENERGY
    ensures energy + EAT_GAIN <= MAX_ENERGY ==> e == energy + EAT_GAIN
    ensures energy + EAT_GAIN > MAX_ENERGY ==> e == MAX_ENERGY
    ensures energy <= MAX_ENERGY ==> energy <= e
  {
    Min(MAX_ENERGY, energy + EAT_GAIN)
  }

  /** The agent after `agent.age += delta`: older by delta and otherwise the same. */
  function Aged(cfg: Config, a: Agent): (b: Agent)
    ensures b.age == a.age + cfg.delta
    ensures b == a.(age := b.age)
  {
    a.(age := a.age + cfg.delta)
  }

  /** The action vector of live agent k: `sense` of the world with the agent aged, then the controller. */
  function Outputs(cfg: Config, w: World, k: nat): (out: seq<real>)
    requires Admissible(cfg) && Consistent(cfg, w) && k < |w.agents| && w.agents[k].alive
    ensures OUTPUTS <= |out|
  {
    var aged := Aged(cfg, w.agents[k]);
    var inputs := Sensors(cfg.width, cfg.height, w.grid, w.pheromone, w.agents[k := aged], k, cfg.tick,
                          cfg.noise(w.noiseUsed), cfg.m.sinTurns);
    Act(cfg, aged, inputs)
  }

  /** The agent after its move: clamped to [0.25, size - 0.25] on both axes, so still on the grid. */
  function Walked(cfg: Config, a: Agent, out: seq<real>): (b: Agent)
    requires 1 <= cfg.width && 1 <= cfg.height && OUTPUTS <= |out|
    ensures InGrid(b, cfg.width, cfg.height)
    ensures b == a.(x := b.x, y := b.y)
  {
    a.(x := MoveCoord(a.x, out[0], cfg.delta, cfg.width), y := MoveCoord(a.y, out[1], cfg.delta, cfg.height))
  }

  /** The food buffer after agent b's turn: its cell cleared when it eats. */
  function GridAfter(cfg: Config, w: World, b: Agent, out: seq<real>): (g: seq<byte>)
    requires Consistent(cfg, w) && InGrid(b, cfg.width, cfg.height) && OUTPUTS <= |out|
    ensures |g| == |w.grid|
  {
    CellInGrid(b, cfg.width, cfg.height);
    var cx, cy := b.x.Floor, b.y.Floor;
    IdxInGrid(cfg.width, cfg.height, cx, cy);
    if Eats(out[2], w.grid, cfg.width, cfg.height, cx, cy) then w.grid[Idx(cfg.width, cx, cy) := 0] else w.grid
  }

  /** The energy of agent b after eating, before emitting. */
  function EnergyAfterEating(cfg: Config, w: World, b: Agent, out: seq<real>): (e: real)
    requires Consistent(cfg, w) && InGrid(b, cfg.width, cfg.height) && OUTPUTS <= |out|
    ensures b.energy <= MAX_ENERGY ==> b.energy <= e <= MAX_ENERGY
    ensures out[2] <= 0.5 ==> e == b.energy
    ensures b.energy + EAT_GAIN <= MAX_ENERGY ==> e == b.energy || e == b.energy + EAT_GAIN
  {
    CellInGrid(b, cfg.width, cfg.height);
    if Eats(out[2], w.grid, cfg.width, cfg.height, b.x.Floor, b.y.Floor) then Fed(b.energy) else b.energy
  }

  /** The pheromone buffer after agent b's turn: its cell set to 255 when it emits. */
  function PheromoneAfter(cfg: Config, w: World, b: Agent, out: seq<real>, e1: real): (p: seq<byte>)
    requires Consistent(cfg, w) && InGrid(b, cfg.width, cfg.height) && OUTPUTS <= |out|
    ensures |p| == |w.pheromone|
  {
    CellInGrid(b, cfg.width, cfg.height);
    var cx, cy := b.x.Floor, b.y.Floor;
    IdxInGrid(cfg.width, cfg.height, cx, cy);
    if Emits(out[3], e1) then w.pheromone[Idx(cfg.width, cx, cy) := 255] else w.pheromone
  }

  /**
   * The turn of agent k. A dead agent is skipped. A live one ages by delta; senses the world with
   * the next noise draw; decides; moves; eats the food of its new cell (clearing it, gaining energy
   * up to MAX_ENERGY); emits (setting its cell's pheromone to 255 for EMIT_COST); pays its drain;
   * and if its energy is then at most 0 is replaced by `createAgent` from the next rng draws.
   */
  function Turn(cfg: Config, w: World, k: nat): (r: World)
    requires Admissible(cfg) && Consistent(cfg, w) && k < |w.agents|
    ensures Consistent(cfg, r)
    ensures |r.agents| == |w.agents|
  {
    if !w.agents[k].alive then w
    else
      var out := Outputs(cfg, w, k);
      Settle(cfg, w, k, Walked(cfg, Aged(cfg, w.agents[k]), out), out)
  }

  /** The rest of a live agent's turn once it has decided `out` and moved to b. */
  function Settle(cfg: Config, w: World, k: nat, b: Agent, out: seq<real>): (r: World)
    requires Admissible(cfg) && Consistent(cfg, w) && k < |w.agents|
    requires InGrid(b, cfg.width, cfg.height) && b.alive && OUTPUTS <= |out|
    requires cfg.ctl.Network? ==> Fits(b.brain, INPUTS)
    ensures Consistent(cfg, r)
    ensures |r.agents| == |w.agents|
  {
    var e1 := EnergyAfterEating(cfg, w, b, out);
    var e2 := (if Emits(out[3], e1) then e1 - EMIT_COST else e1) - Drain(cfg);
    var grid := GridAfter(cfg, w, b, out);
    var pher := PheromoneAfter(cfg, w, b, out, e1);
    if e2 <= 0.0 then
      FreshAgentPlaced(cfg.width, cfg.height, cfg.rng, w.rngUsed, cfg.m.sqrt);
      var newborn := FreshAgent(cfg.width, cfg.height, cfg.rng, w.rngUsed, cfg.m.sqrt);
      World(grid, pher, w.agents[k := newborn], w.noiseUsed + 1, w.rngUsed + AGENT_DRAWS)
    else
      World(grid, pher, w.agents[k := b.(energy := e2)], w.noiseUsed + 1, w.rngUsed)
  }

  /**
   * How the world stands once live agent k, moved to b after deciding out, has settled. With c
   * the index of b's cell: the food on c is eaten when out[2] > 0.5, clearing c and giving
   * EAT_GAIN up to MAX_ENERGY; c is marked 255 when out[3] > 0.5 and the energy then exceeds
   * EMIT_COST + 1, which costs EMIT_COST; no other cell changes. After the drain an agent left with
   * at most 0 is replaced by the agent built from the next AGENT_DRAWS rng draws, and otherwise it
   * is b with the energy left. No other agent changes and one noise draw has been used.
   */
  ghost predicate SettledAs(cfg: Config, w: World, k: nat, b: Agent, out: seq<real>, r: World)
    requires Consistent(cfg, w) && k < |w.agents| && InGrid(b, cfg.width, cfg.height) && OUTPUTS <= |out|
  {
    CellInGrid(b, cfg.width, cfg.height);
    IdxInGrid(cfg.width, cfg.height, b.x.Floor, b.y.Floor);
    var c := Idx(cfg.width, b.x.Floor, b.y.Floor);
    var eats := out[2] > 0.5 && w.grid[c] == 1;
    var e1 := if !eats then b.energy else if b.energy + EAT_GAIN <= MAX_ENERGY then b.energy + EAT_GAIN else MAX_ENERGY;
    var emits := out[3] > 0.5 && e1 > EMIT_COST + 1.0;
    var e2 := (if emits then e1 - EMIT_COST else e1) - ENERGY_DECAY * cfg.delta * cfg.simSpeed;
    && |r.grid| == |w.grid| && |r.pheromone| == |w.pheromone| && |r.agents| == |w.agents|
    && r.grid[c] == (if eats then 0 else w.grid[c])
    && r.pheromone[c] == (if emits then 255 else w.pheromone[c])
    && (forall i :: 0 <= i < |w.grid| && i != c ==> r.grid[i] == w.grid[i])
    && (forall i :: 0 <= i < |w.pheromone| && i != c ==> r.pheromone[i] == w.pheromone[i])
    && (forall j :: 0 <= j < |w.agents| && j != k ==> r.agents[j] == w.agents[j])
    && r.agents[k] == (if e2 <= 0.0 then FreshAgent(cfg.width, cfg.height, cfg.rng, w.rngUsed, cfg.m.sqrt)
                       else b.(energy := e2))
    && r.rngUsed == w.rngUsed + (if e2 <= 0.0 then AGENT_DRAWS else 0)
    && r.noiseUsed == w.noiseUsed + 1
  }

  /** Settling eats, marks, drains and respawns exactly as `SettledAs` describes. */
  lemma SettleEffects(cfg: Config, w: World, k: nat, b: Agent, out: seq<real>)
    requires Admissible(cfg) && Consistent(cfg, w) && k < |w.agents|
    requires InGrid(b, cfg.width, cfg.height) && b.alive && OUTPUTS <= |out|
    requires cfg.ctl.Network? ==> Fits(b.brain, INPUTS)
    ensures SettledAs(cfg, w, k, b, out, Settle(cfg, w, k, b, out))
  {
    CellInGrid(b, cfg.width, cfg.height);
    IdxInGrid(cfg.width, cfg.height, b.x.Floor, b.y.Floor);
  }

  /** The first k turns of a pass, in list order. */
  function RunTurns(cfg: Config, w: World, k: nat): (r: World)
    requires Admissible(cfg) && Consistent(cfg, w) && k <= |w.agents|
    ensures Consistent(cfg, r)
    ensures |r.agents| == |w.agents|
    decreases k
  {
    if k == 0 then w else Turn(cfg, RunTurns(cfg, w, k - 1), k - 1)
  }

  /** `updateAgents(state, delta, ...)`: the turns of all agents. */
  function Pass(cfg: Config, w: World): (r: World)
    requires Admissible(cfg) && Consistent(cfg, w)
    ensures Consistent(cfg, r)
    ensures |r.agents| == |w.agents|
  {
    RunTurns(cfg, w, |w.agents|)
  }

  /**
   * A turn touches only its own agent, keeps every agent's liveness, skips a dead agent
   * entirely, and takes one noise draw exactly when the agent is alive.
   */
  lemma TurnFrame(cfg: Config, w: World, k: nat)
    requires Admissible(cfg) && Consistent(cfg, w) && k < |w.agents|
    ensures var r := Turn(cfg, w, k);
      && (forall j :: 0 <= j < |w.agents| && j != k ==> r.agents[j] == w.agents[j])
      && (forall j :: 0 <= j < |w.agents| ==> r.agents[j].alive == w.agents[j].alive)
      && (!w.agents[k].alive ==> r == w)
      && r.noiseUsed == w.noiseUsed + (if w.agents[k].alive then 1 else 0)
  {
  }

  /**
   * What becomes of a live agent: it ages by delta, keeps its brain and moves to b, clamped to
   * [0.25, size - 0.25] on both axes; then it eats, emits and pays its drain on b's cell as
   * `SettledAs` describes, surviving with the energy left when that is positive and being replaced
   * by the agent `createAgent` builds from the next AGENT_DRAWS rng draws otherwise.
   */
  lemma TurnOutcome(cfg: Config, w: World, k: nat)
    requires Admissible(cfg) && Consistent(cfg, w) && k < |w.agents| && w.agents[k].alive
    ensures var a := w.agents[k]; var out := Outputs(cfg, w, k); var b := Walked(cfg, Aged(cfg, a), out);
      && 0.25 <= b.x <= cfg.width as real - 0.25 && 0.25 <= b.y <= cfg.height as real - 0.25
      && b.alive && b.brain == a.brain && b.age == a.age + cfg.delta && b.energy == a.energy
      && SettledAs(cfg, w, k, b, out, Turn(cfg, w, k))
  {
    var out := Outputs(cfg, w, k);
    var b := Walked(cfg, Aged(cfg, w.agents[k]), out);
    SettleEffects(cfg, w, k, b, out);
  }

  /**
   * Energy stays in (0, MAX_ENERGY] across a live agent's turn when delta and simSpeed are not
   * negative: eating is capped, emitting needs more than its cost, and a depleted agent restarts
   * with at least 72.
   */
  lemma TurnEnergy(cfg: Config, w: World, k: nat)
    requires Admissible(cfg) && Consistent(cfg, w) && k < |w.agents| && w.agents[k].alive
    requires 0.0 <= cfg.delta && 0.0 <= cfg.simSpeed
    requires w.agents[k].energy <= MAX_ENERGY
    ensures 0.0 < Turn(cfg, w, k).agents[k].energy <= MAX_ENERGY
  {
    assert 0.0 <= cfg.rng(w.rngUsed + 2) < 1.0;
  }

  /** A turn changes at most one food cell, the agent's own, and only from food (1) to empty (0). */
  lemma TurnOnlyEats(cfg: Config, w: World, k: nat)
    requires Admissible(cfg) && Consistent(cfg, w) && k < |w.agents|
    ensures var r := Turn(cfg, w, k);
      && (forall i :: 0 <= i < |w.grid| && r.grid[i] != w.grid[i] ==> w.grid[i] == 1 && r.grid[i] == 0)
      && (forall i, j :: 0 <= i < j < |w.grid| ==> r.grid[i] == w.grid[i] || r.grid[j] == w.grid[j])
  {
  }

  /** A turn changes at most one pheromone cell, and only by setting it to 255. */
  lemma TurnOnlyMarks(cfg: Config, w: World, k: nat)
    requires Admissible(cfg) && Consistent(cfg, w) && k < |w.agents|
    ensures var r := Turn(cfg, w, k);
      && (forall i :: 0 <= i < |w.pheromone| && r.pheromone[i] != w.pheromone[i] ==> r.pheromone[i] == 255)
      && (forall i, j :: 0 <= i < j < |w.pheromone| ==> r.pheromone[i] == w.pheromone[i] || r.pheromone[j] == w.pheromone[j])
  {
  }

  /** Live agents among agents[..k]. */
  function CountAlive(agents: seq<Agent>, k: nat): nat
    requires k <= |agents|
    decreases k
  {
    if k == 0 then 0 else CountAlive(agents, k - 1) + (if agents[k - 1].alive then 1 else 0)
  }

  /** After k turns the agents from k on are untouched and nobody's liveness has changed. */
  lemma {:induction false} RunTurnsFrame(cfg: Config, w: World, k: nat)
    requires Admissible(cfg) && Consistent(cfg, w) && k <= |w.agents|
    ensures var r := RunTurns(cfg, w, k);
      && (forall j :: k <= j < |w.agents| ==> r.agents[j] == w.agents[j])
      && (forall j :: 0 <= j < |w.agents| ==> r.agents[j].alive == w.agents[j].alive)
      && r.noiseUsed == w.noiseUsed + CountAlive(w.agents, k)
    decreases k
  {
    if k > 0 {
      RunTurnsFrame(cfg, w, k - 1);
      TurnFrame(cfg, RunTurns(cfg, w, k - 1), k - 1);
    }
  }

  /** A pass takes exactly one noise draw per live agent: one `sense` call each. */
  lemma PassNoiseDraws(cfg: Config, w: World)
    requires Admissible(cfg) && Consistent(cfg, w)
    ensures Pass(cfg, w).noiseUsed == w.noiseUsed + CountAlive(w.agents, |w.agents|)
  {
    RunTurnsFrame(cfg, w, |w.agents|);
  }

  /** Over a pass, a food cell can only have been eaten: it changed only from 1 to 0. */
  lemma {:induction false} RunTurnsOnlyEat(cfg: Config, w: World, k: nat)
    requires Admissible(cfg) && Consistent(cfg, w) && k <= |w.agents|
    ensures var r := RunTurns(cfg, w, k);
      forall i :: 0 <= i < |w.grid| && r.grid[i] != w.grid[i] ==> w.grid[i] == 1 && r.grid[i] == 0
    decreases k
  {
    if k > 0 {
      RunTurnsOnlyEat(cfg, w, k - 1);
      TurnOnlyEats(cfg, RunTurns(cfg, w, k - 1), k - 1);
    }
  }

  /** Over a pass, a pheromone cell can only have been marked: a changed cell holds 255. */
  lemma {:induction false} RunTurnsOnlyMark(cfg: Config, w: World, k: nat)
    requires Admissible(cfg) && Consistent(cfg, w) && k <= |w.agents|
    ensures var r := RunTurns(cfg, w, k);
      forall i :: 0 <= i < |w.pheromone| && r.pheromone[i] != w.pheromone[i] ==> r.pheromone[i] == 255
    decreases k
  {
    if k > 0 {
      RunTurnsOnlyMark(cfg, w, k - 1);
      TurnOnlyMarks(cfg, RunTurns(cfg, w, k - 1), k - 1);
    }
  }

  /** With no negative drain and every energy at most MAX_ENERGY, a pass keeps every live energy in (0, MAX_ENERGY]. */
  lemma {:induction false} RunTurnsEnergy(cfg: Config, w: World, k: nat)
    requires Admissible(cfg) && Consistent(cfg, w) && k <= |w.agents|
    requires 0.0 <= cfg.delta && 0.0 <= cfg.simSpeed
    requires forall j :: 0 <= j < |w.agents| ==> w.agents[j].energy <= MAX_ENERGY
    ensures var r := RunTurns(cfg, w, k);
      && (forall j :: 0 <= j < k && r.agents[j].alive ==> 0.0 < r.agents[j].energy <= MAX_ENERGY)
      && (forall j :: 0 <= j < |w.agents| ==> r.agents[j].energy <= MAX_ENERGY)
    decreases k
  {
    if k > 0 {
      RunTurnsEnergy(cfg, w, k - 1);
      RunTurnsFrame(cfg, w, k - 1);
      var prev := RunTurns(cfg, w, k - 1);
      assert prev.agents[k - 1] == w.agents[k - 1];
      var r := Turn(cfg, prev, k - 1);
      assert r == RunTurns(cfg, w, k);
      TurnFrame(cfg, prev, k - 1);
      if prev.agents[k - 1].alive {
        TurnEnergy(cfg, prev, k - 1);
      }
      forall j | 0 <= j < |w.agents|
        ensures r.agents[j].energy <= MAX_ENERGY
        ensures j < k && r.agents[j].alive ==> 0.0 < r.agents[j].energy
      {
        if j != k - 1 {
          assert r.agents[j] == prev.agents[j];
        }
      }
    }
  }

  /** After a whole pass every live agent has energy in (0, MAX_ENERGY]. */
  lemma PassEnergy(cfg: Config, w: World)
    requires Admissible(cfg) && Consistent(cfg, w)
    requires 0.0 <= cfg.delta && 0.0 <= cfg.simSpeed
    requires forall j :: 0 <= j < |w.agents| ==> w.agents[j].energy <= MAX_ENERGY
    ensures forall j :: 0 <= j < |w.agents| && Pass(cfg, w).agents[j].alive ==>
      0.0 < Pass(cfg, w).agents[j].energy <= MAX_ENERGY
  {
    RunTurnsEnergy(cfg, w, |w.agents|);
    var r := Pass(cfg, w);
    assert r == RunTurns(cfg, w, |w.agents|);
    assert forall j :: 0 <= j < |w.agents| && r.agents[j].alive ==> 0.0 < r.agents[j].energy <= MAX_ENERGY;
  }

  /** The controller of tests/agents.test.js: a `decide` that always returns the same four values. */
  function Fixed(out: seq<real>): Decider {
    Decide((a: Agent, inputs: seq<real>) => out)
  }

  /** The 5 x 5 world of tests/agents.test.js with one agent, simSpeed 1 and delta 1. */
  function TestConfig(ctl: Decider, noise: Stream, rng: Stream, m: Maths): Config {
    Config(5, 5, 1.0, 0.0, 1.0, noise, rng, ctl, m)
  }

  /** "clamps movement inside bounds": from (0.1, 0.1), pushed by -10 on both axes, the agent stops at (0.25, 0.25). */
  lemma ClampScene(grid: seq<byte>, pher: seq<byte>, brain: Brain, noise: Stream, rng: Stream, m: Maths, n: nat, d: nat)
    requires UnitStream(rng) && |grid| == 25 && |pher| == 25
    ensures var cfg := TestConfig(Fixed([-10.0, -10.0, 0.0, 0.0]), noise, rng, m);
      var w := World(grid, pher, [Agent(0.1, 0.1, 96.0, brain, 0.0, true)], n, d);
      Admissible(cfg) && Consistent(cfg, w) && Pass(cfg, w).agents[0].x == 0.25 && Pass(cfg, w).agents[0].y == 0.25
  {
    assert Area(5, 5) == 25;
  }

  /** "eats food and gains energy up to cap": at 110 on a food cell it eats, caps at 120, then pays 0.3. */
  lemma EatScene(grid: seq<byte>, pher: seq<byte>, brain: Brain, noise: Stream, rng: Stream, m: Maths, n: nat, d: nat)
    requires UnitStream(rng) && |grid| == 25 && |pher| == 25 && grid[12] == 1
    ensures var cfg := TestConfig(Fixed([0.0, 0.0, 1.0, 0.0]), noise, rng, m);
      var w := World(grid, pher, [Agent(2.5, 2.5, 110.0, brain, 0.0, true)], n, d);
      Admissible(cfg) && Consistent(cfg, w) && Pass(cfg, w).grid[12] == 0 && Pass(cfg, w).agents[0].energy == 119.7
  {
    assert Area(5, 5) == 25 && Idx(5, 2, 2) == 12;
  }

  /** "emits pheromone when output exceeds threshold": its cell goes to 255 and it pays 4 + 0.3. */
  lemma EmitScene(grid: seq<byte>, pher: seq<byte>, brain: Brain, noise: Stream, rng: Stream, m: Maths, n: nat, d: nat)
    requires UnitStream(rng) && |grid| == 25 && |pher| == 25
    ensures var cfg := TestConfig(Fixed([0.0, 0.0, 0.0, 1.0]), noise, rng, m);
      var w := World(grid, pher, [Agent(2.5, 2.5, 96.0, brain, 0.0, true)], n, d);
      Admissible(cfg) && Consistent(cfg, w) && Pass(cfg, w).pheromone[12] == 255 && Pass(cfg, w).agents[0].energy == 96.0 - 4.0 - 0.3
  {
    assert Area(5, 5) == 25 && Idx(5, 2, 2) == 12;
  }

  /**
   * "removes agents when energy depletes": at 0.05 the drain of 0.3 empties the agent, and the
   * code replaces it in place by a fresh agent from the next draws; the list keeps its length.
   */
  lemma DepletionScene(grid: seq<byte>, pher: seq<byte>, brain: Brain, noise: Stream, rng: Stream, m: Maths, n: nat, d: nat)
    requires UnitStream(rng) && |grid| == 25 && |pher| == 25
    ensures var cfg := TestConfig(Fixed([0.0, 0.0, 0.0, 0.0]), noise, rng, m);
      var w := World(grid, pher, [Agent(2.5, 2.5, 0.05, brain, 0.0, true)], n, d);
      && Admissible(cfg) && Consistent(cfg, w)
      && Pass(cfg, w).agents == [FreshAgent(5, 5, rng, d, m.sqrt)]
      && Pass(cfg, w).rngUsed == d + AGENT_DRAWS
  {
    assert Area(5, 5) == 25;
  }
}
