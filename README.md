# Living Matrix simulation core and AlphaFold viewer helpers, in Dafny

This project models two pieces of one repository and proves properties about them.

**Living Matrix** (`matrix-evolution/sim-core.js`) is an artificial-life simulation.
- A 72 x 48 byte grid holds food. Each tick it evolves by Conway's B3/S23 rule, with a small random regrowth chance for each cell that stays dead.
- A pheromone grid of bytes decays by 3 per tick, floored at 0.
- Agents move, eat food, emit pheromone and pay energy. Each agent is driven by a 12-input, tanh-activated, two-layer network (`feedForward`) or by an injected `decide` function.
- `sense` builds the 12 inputs: the food on the four neighbours, nearest-agent proximity, pheromone level and gradients, wall distance, energy, a shared oscillator and noise.
- An agent whose energy runs out is replaced in place by a fresh random agent.

**AlphaFold viewer helpers** (`alphafold/app.js`) are the pure functions behind the viewer's panels:
- pLDDT colour bands;
- sequence normalisation;
- the choice of structure file;
- the four confidence bars;
- percentage formatting;
- the local-storage cache key;
- the first-truthy fallback chains that pick the displayed identifier, name, length and summary accession.

Layout, one module per file:
- `wrappers.dfy`, `Wrappers`: the `Option` type.
- `sim_base.dfy`, `SimBase`: the constants, the byte type, `clamp` and `randomFloat`. It also holds row-major indexing (`Idx`, written with a recursive `Mul` so that the proofs stay linear), injected number streams and the `Maths` bundle (`tanh`, `sin`, `sqrt`).
- `sim_life.dfy`, `Life`: neighbour counting, the B3/S23 rule, which draw each dead cell consumes, and the next generation as a function.
- `sim_pheromone.dfy`, `Pheromone`: decay.
- `sim_controller.dfy`, `Controller`: the brain, `feedForward` as a loop-based method proved equal to a layer function, and `makeBrain`.
- `sim_agents.dfy`, `Agents`: the agent record, `createAgent` and `initAgents`' population.
- `sim_sense.dfy`, `Sensorium`: the sensors as a function and `sense` as a method.
- `sim_lifecycle.dfy`, `Lifecycle`: one agent's turn and a full `updateAgents` pass as functions on a value `World`.
- `sim_state.dfy`, `SimCore`: the simulation state as a class with three `array<byte>` buffers. `createState`, `stepLife`, `decayPheromone`, `seedFood`, `initAgents` and `updateAgents` are methods on it, each proved against the functions above.
- `alphafold.dfy`, `AlphaFold`: the viewer helpers.

Randomness is modelled as a stream `nat -> real`. The n-th call of `rng()` (or `randomFn()` or `noiseFn()`) returns `stream(n)`. `StepLife`, `SeedFood`, `InitAgents`, `UpdateAgents` and `CreateAgent` return how many draws they took; `MakeBrain` reads a fixed number of draws from a given offset. `UnitStream` states the `[0, 1)` range that `Math.random` promises. `Math.tanh`, `Math.sin` and `Math.sqrt` are function values passed in. The lemmas that need their ranges assume them (`UnitRange`).

## Model

| member | source | states |
|---|---|---|
| SimBase.Clamp | matrix-evolution/sim-core.js:13-15 | the result lies in [lo, hi] when lo <= hi; values inside are kept; values below give lo, above give hi; lo wins when lo > hi (max applied last) |
| SimBase.RandomFloat | matrix-evolution/sim-core.js:17-19 | a draw in [0, 1) gives a value in [min, max], and below max when min < max |
| SimBase.ScaleByUnit | matrix-evolution/sim-core.js:17-19 | a draw in [0, 1) scales a non-negative span d into [0, d], strictly below d when d > 0 |
| SimBase.MulIsProduct | matrix-evolution/sim-core.js:21-23 | the recursive product used for indices is integer multiplication |
| SimBase.MulRowsBefore | matrix-evolution/sim-core.js:21-23 | the row y + 1 ends inside a buffer of `rows` rows, for y < rows |
| SimBase.IdxInGrid | matrix-evolution/sim-core.js:21-23 | `idx` of an in-grid cell lies in [0, width * height) |
| SimBase.IdxOrdered | matrix-evolution/sim-core.js:21-23 | a cell earlier in row-major scan order has a strictly smaller index, so distinct cells never share one |
| SimBase.IdxIsRowMajor | matrix-evolution/sim-core.js:21-23 | `Idx(width, x, y) == y * width + x` |
| SimCore.State.constructor | matrix-evolution/sim-core.js:25-42 | three fresh zero-filled buffers of width * height cells, the four settings stored, no agents, tick 0 |
| SimCore.State.CreateDefault | matrix-evolution/sim-core.js:25-30 | the defaults 72 x 48, simSpeed 1, targetFoodDensity 0.22 |
| Life.NeighbourCount | matrix-evolution/sim-core.js:80-89 | the dy/dx scan with the centre skipped and out-of-grid cells skipped counts exactly the eight Moore neighbours, so at most 8 |
| Life.CountIsLocal | matrix-evolution/sim-core.js:80-89 | the count depends only on the 3 x 3 block around the cell |
| Life.CornerCount | matrix-evolution/sim-core.js:86 | at corner (0, 0) only (1, 0), (0, 1), (1, 1) are counted: edges do not wrap |
| SimCore.State.CountNeighbours | matrix-evolution/sim-core.js:80-89 | the nested loop with both `continue`s returns the scanned neighbour count |
| Life.RuleAliveCases | matrix-evolution/sim-core.js:90-93 | on the eight Moore neighbours, the rule keeps or makes a cell alive exactly when 3 are live, or 2 with the cell itself live; so 3 always gives a live cell, a live result needs 2 or 3, and a cell not holding 1 is alive exactly when it has 3 |
| Life.RowRule | matrix-evolution/sim-core.js:90-93 | the B3/S23 outcome of every cell of a row, one per column |
| Life.LifeCell | matrix-evolution/sim-core.js:90-95 | a cell's next value is 0 or 1; 1 when the rule keeps or makes it alive; otherwise 1 exactly when its own draw falls below `targetFoodDensity * 0.0025` |
| Life.NoRegrowthIsConway | matrix-evolution/sim-core.js:94 | with no draw below the threshold the step is plain B3/S23, both directions |
| Life.ZeroDensityNeverRegrows | matrix-evolution/tests/life.test.js:28-32 | with density 0 and draws in [0, 1), a cell is alive next exactly when the rule says so |
| Life.ZeroDrawsRegrowEverything | matrix-evolution/tests/life.test.js:33-35 | with every draw 0 and a positive density every cell becomes 1 |
| Life.RowTotals | matrix-evolution/sim-core.js:94 | one draw total per row |
| Life.DrawsBeforeStep | matrix-evolution/sim-core.js:78-97 | finishing row y adds exactly that row's draws |
| Life.DrawsInRowStep | matrix-evolution/sim-core.js:94 | scanning one more cell adds a draw exactly when the rule leaves it dead (the `!next &&` short-circuit) |
| Life.CountFalseMonotone | matrix-evolution/sim-core.js:94 | the dead-cell count of a prefix grows, and entry i is counted before the prefix reaches j > i |
| Life.CountFalseBounded | matrix-evolution/sim-core.js:94 | no more dead cells than cells |
| Life.SumMonotone | matrix-evolution/sim-core.js:94 | row draw totals accumulate monotonically |
| Life.DrawsAreDistinct | matrix-evolution/sim-core.js:94 | a dead cell earlier in the scan consumes a strictly earlier draw than any later cell, so every regrowth draw is independent |
| Life.DrawsBounded | matrix-evolution/sim-core.js:94 | a whole step takes at most one draw per cell |
| Life.NextRow | matrix-evolution/sim-core.js:79-96 | one next-generation row has width cells |
| Life.NextRows | matrix-evolution/sim-core.js:78-97 | the rows before yEnd fill exactly yEnd * width cells |
| Life.NextGrid | matrix-evolution/sim-core.js:76-100 | the next generation has the grid's size |
| Life.NextRowsAt | matrix-evolution/sim-core.js:95 | cell (x, y) of the rows laid out so far, at index `y * width + x`, is cell x of row y |
| Life.NextGridAt | matrix-evolution/sim-core.js:95 | every cell of the next generation is its `LifeCell`, hence 0 or 1 |
| Life.SurvivalScenario | matrix-evolution/tests/life.test.js:11-19 | a live centre with 2 neighbours survives |
| Life.BirthScenario | matrix-evolution/tests/life.test.js:20-25 | the asserted cell (1,0), index 1, is live with 2 live neighbours and survives; the dead centre, with exactly 3, is born |
| SimCore.State.StepLife | matrix-evolution/sim-core.js:76-100 | the current grid becomes the next generation of the old grid, computed entirely from the old buffer, and the buffers are swapped; returns the draws taken, one per cell the rule leaves dead |
| SimCore.State.FillNext | matrix-evolution/sim-core.js:78-97 | the scan writes the whole next generation into `nextGrid`, reading only `grid` |
| SimCore.State.FillRow | matrix-evolution/sim-core.js:79-96 | one row pass fills exactly that row's cells and leaves earlier rows alone |
| SimCore.State.NextCell | matrix-evolution/sim-core.js:80-95 | one cell: its `LifeCell` and one draw when the rule leaves it dead |
| Pheromone.Decayed | matrix-evolution/sim-core.js:105-106 | a cell drops by exactly 3, floored at 0; never rises; reaches 0 exactly when it was at most 3 |
| Pheromone.DecayAll | matrix-evolution/sim-core.js:102-108 | every cell decays independently and the length is kept |
| Pheromone.DecayedTimesValue | matrix-evolution/sim-core.js:102-108 | after n steps a cell holds max(0, v - 3n) |
| Pheromone.DecayReachesZero | matrix-evolution/sim-core.js:102-108 | decay reaches exactly 0 after ceil(v / 3) steps and stays there |
| Pheromone.DecayExample | matrix-evolution/tests/pheromone.test.js:5-10 | [1, 3, 4, 10] decays to [0, 0, 1, 7] |
| SimCore.State.DecayPheromone | matrix-evolution/sim-core.js:102-108 | the in-place loop leaves the buffer equal to `DecayAll` of the old buffer |
| Life.Seeded | matrix-evolution/sim-core.js:70-74 | cell i is food (1) exactly when draw i is below the density, and is 0 otherwise |
| Life.SeededExtremes | matrix-evolution/sim-core.js:70-74 | density 0 seeds no food and density 1 seeds food everywhere |
| SimCore.State.SeedFood | matrix-evolution/sim-core.js:70-74 | the loop writes `Seeded` into the grid, taking one draw per cell |
| Controller.Layer | matrix-evolution/sim-core.js:163-169 | a tanh layer has one value per row, each in [-1, 1] when tanh is |
| Controller.HiddenLayer | matrix-evolution/sim-core.js:161-169 | the hidden layer has hiddenSize values in [-1, 1] |
| Controller.Forward | matrix-evolution/sim-core.js:159-181 | exactly 4 outputs, each in [-1, 1] |
| Controller.DotOfZeros | matrix-evolution/sim-core.js:165-167 | the sum `Dot` of `inputs[i] * w1[idxW++]` over a row is 0 when the row's weights or the inputs are all 0 |
| Controller.AccumulateRow | matrix-evolution/sim-core.js:165-167 | the inner loop's sum is the dot product with the next n weights, and the running index advances by n |
| Controller.ApplyLayer | matrix-evolution/sim-core.js:162-169 | the layer loop, with its one running weight index, computes `Layer`: unit r reads weights r * n .. r * n + n |
| Controller.FeedForward | matrix-evolution/sim-core.js:159-181 | `feedForward` returns `Forward`: w1 read at h * 12 + i, w2 at o * hiddenSize + h |
| Controller.DotLeadingUnit | matrix-evolution/tests/feedforward.test.js:5-22 | a weight row 1, 0, 0, ... selects the first input |
| Controller.UnitWeightNetwork | matrix-evolution/tests/feedforward.test.js:5-22 | one hidden unit with unit weights yields tanh(tanh(inputs[0])) on all four outputs |
| Controller.Uniform | matrix-evolution/sim-core.js:49-50 | one weight per draw |
| Controller.UniformBounded | matrix-evolution/sim-core.js:49-50 | with draws in [0, 1) every weight lies in [-scale, scale] |
| Controller.BrainFrom | matrix-evolution/sim-core.js:44-52 | the brain has the given hidden size, 12 * hiddenSize first-layer and 4 * hiddenSize second-layer weights, and first-layer weight i is `randomFloat` of draw i in [-scale1, scale1] |
| Controller.BrainFromShape | matrix-evolution/sim-core.js:44-52 | w1 has 12 * H weights and w2 has 4 * H; the brain fits 12 inputs; the weights lie within sqrt(1/12) and sqrt(1/H) |
| Controller.FillUniform | matrix-evolution/sim-core.js:49-50 | the fill loop produces `Uniform` |
| Controller.MakeBrain | matrix-evolution/sim-core.js:44-52 | both loops fill w1 and then w2 from consecutive draws |
| Agents.AgentDrawCount | matrix-evolution/sim-core.js:54-63 | an agent takes 131 draws: x, y, energy, 96 + 32 weights |
| Agents.CellInGrid | matrix-evolution/sim-core.js:200-201 | an agent inside the grid stands on an existing cell |
| Agents.CellCentre | matrix-evolution/sim-core.js:56-57 | `floor(u * n) + 0.5` is a cell centre in [0.5, n - 0.5] |
| Agents.FreshAgent | matrix-evolution/sim-core.js:54-63 | a new agent is alive, aged 0, has an 8-unit brain, and its energy is `randomFloat` of its third draw between 72 and 120 |
| Agents.FreshAgentPlaced | matrix-evolution/sim-core.js:54-63 | a fresh agent is alive, inside the grid, and has a brain for 12 inputs |
| Agents.FreshAgentValid | matrix-evolution/sim-core.js:54-63 | additionally it has age 0, energy in [72, 120), hidden size 8 and weights within their scales |
| Agents.HalfDrawAgent | matrix-evolution/sim-core.js:56-58 | on 5 x 5 with draws 0.5 the agent stands at (2.5, 2.5) with energy 96 |
| Agents.CreateAgent | matrix-evolution/sim-core.js:54-63 | `createAgent` builds `FreshAgent` and takes 131 draws |
| Agents.Spawned | matrix-evolution/sim-core.js:65-68 | `count` agents |
| Agents.SpawnedAgents | matrix-evolution/sim-core.js:65-68 | agent i is the fresh agent built from draws 131 * i onward |
| Agents.SpawnedValid | matrix-evolution/sim-core.js:65-68 | every initial agent is alive, on the grid, with energy in [72, 120) |
| SimCore.State.InitAgents | matrix-evolution/sim-core.js:65-68 | the old agents are dropped and `count` fresh ones pushed in order; count * 131 draws; buffers untouched |
| Sensorium.Dist2 | matrix-evolution/sim-core.js:124-126 | a squared distance is never negative |
| Sensorium.SquareNonNegative | matrix-evolution/sim-core.js:126 | v * v >= 0 |
| Sensorium.NearestIn | matrix-evolution/sim-core.js:120-128 | `minDist2` after the loop has seen k agents: still Infinity when none was seen, and never negative |
| Sensorium.NearestIsMinimum | matrix-evolution/sim-core.js:120-128 | `minDist2` stays Infinity exactly when no other live agent exists; otherwise some candidate attains it and none is closer |
| Sensorium.Proximity | matrix-evolution/sim-core.js:129-132 | proximity lies in [0, 1] and is positive exactly when a nearest agent exists closer than squared distance 25 |
| Sensorium.ProximityFires | matrix-evolution/sim-core.js:120-132 | proximity fires exactly when some other live agent lies within squared distance 25 |
| Sensorium.NearestOther | matrix-evolution/sim-core.js:120-128 | the loop with `continue` for itself and the dead computes the minimum |
| Sensorium.FoodAt | matrix-evolution/sim-core.js:115-118 | a neighbour outside the grid reads 0; otherwise its cell value |
| Sensorium.Gradient | matrix-evolution/sim-core.js:139-140 | the gradient is (hi - lo) / 255, in [-1, 1], and 0 exactly when the levels agree |
| Sensorium.WallDist | matrix-evolution/sim-core.js:142 | the wall distance lies in [0, 0.5] and is 0 exactly on the left or top edge cells |
| Sensorium.Fraction | matrix-evolution/sim-core.js:142 | a part of a dimension and its complement are fractions that add to 1 |
| Sensorium.EnergyLevel | matrix-evolution/sim-core.js:143 | normalised energy lies in [0, 1] and equals energy / 120 for energies in range |
| Sensorium.Oscillator | matrix-evolution/sim-core.js:144 | the oscillator lies in [0, 1] |
| Sensorium.Sensors | matrix-evolution/sim-core.js:110-157 | 12 inputs; boundary neighbours read 0; proximity and pheromone in [0, 1]; gradients in [-1, 1]; wall distance in [0, 0.5]; energy in [0, 1]; input 11 is the noise draw |
| Sensorium.FoodSensors | matrix-evolution/sim-core.js:115-118 | the four food reads give `FoodAt` of the four neighbours, 0 across the edge |
| Sensorium.LevelOr | matrix-evolution/sim-core.js:135-138 | the neighbour's pheromone level when the neighbour lies in the grid, otherwise the centre cell's |
| Sensorium.PheromoneSensors | matrix-evolution/sim-core.js:134-140 | the level here over 255 and both gradients, the centre standing in for a missing neighbour |
| Sensorium.Sense | matrix-evolution/sim-core.js:110-157 | `sense` computes `Sensors` |
| Sensorium.SenseScene | matrix-evolution/tests/sense.test.js:9-35 | the test scene: north and east food 1, proximity 0.96, gradX 150/255, gradY 0, wall 0.4, energy 0.5, oscillator 1, noise 0.42 |
| Lifecycle.Act | matrix-evolution/sim-core.js:192 | the controller yields at least 4 actions; the network's lie in [-1, 1] |
| Lifecycle.MoveCoord | matrix-evolution/sim-core.js:194-198 | a coordinate after moving lies in [0.25, size - 0.25] and on an existing cell |
| Lifecycle.Drain | matrix-evolution/sim-core.js:214 | the metabolic cost `ENERGY_DECAY * delta * simSpeed` is not negative for non-negative delta and simSpeed, and 0 when either is 0 |
| Lifecycle.Eats | matrix-evolution/sim-core.js:203 | no eating when outputs[2] is at most 0.5 or the cell does not hold exactly 1 |
| Lifecycle.Emits | matrix-evolution/sim-core.js:208 | no emitting when outputs[3] is at most 0.5; an emitter keeps more than 1 energy after paying EMIT_COST |
| Lifecycle.Fed | matrix-evolution/sim-core.js:205 | eating adds 35 when that stays within 120 and gives exactly 120 otherwise, so never more than 120 and never lowers an in-range energy |
| Lifecycle.Aged | matrix-evolution/sim-core.js:190 | `agent.age += delta`: the age grows by delta and nothing else changes |
| Lifecycle.Outputs | matrix-evolution/sim-core.js:190-192 | an agent's action vector, from the sensors of the state with its own age advanced, has at least 4 entries |
| Lifecycle.Walked | matrix-evolution/sim-core.js:194-198 | moving changes only x and y, and keeps the agent on the grid |
| Lifecycle.GridAfter | matrix-evolution/sim-core.js:203-206 | eating keeps the grid size |
| Lifecycle.EnergyAfterEating | matrix-evolution/sim-core.js:203-206 | the energy after the eating step stays in [energy, 120] for an in-range energy, is unchanged when outputs[2] is at most 0.5, and otherwise grows by 0 or 35 when that stays within 120 |
| Lifecycle.PheromoneAfter | matrix-evolution/sim-core.js:208-212 | emitting keeps the buffer size |
| Lifecycle.Turn | matrix-evolution/sim-core.js:188-218 | a turn keeps the world consistent (buffer sizes, live agents on the grid) and the population size |
| Lifecycle.Settle | matrix-evolution/sim-core.js:200-217 | eating, emitting, metabolism and respawn keep the world consistent |
| Lifecycle.SettleEffects | matrix-evolution/sim-core.js:200-217 | with c the index of the agent's cell: c's food is cleared exactly when outputs[2] > 0.5 and c holds 1, which gives EAT_GAIN up to 120; c's pheromone is set to 255 exactly when outputs[3] > 0.5 and the energy then exceeds 5, which costs 4; no other cell and no other agent changes; after the drain the agent is replaced by the `createAgent` agent of the next 131 draws exactly when its energy is at most 0, and otherwise keeps that energy |
| Lifecycle.RunTurns | matrix-evolution/sim-core.js:188-218 | the first k turns keep the world consistent |
| Lifecycle.Pass | matrix-evolution/sim-core.js:183-219 | a pass keeps the world consistent and the population size |
| Lifecycle.TurnFrame | matrix-evolution/sim-core.js:188-191 | a turn touches only its own agent, keeps liveness, skips a dead agent entirely, and takes one noise draw exactly for a live one |
| Lifecycle.TurnOutcome | matrix-evolution/sim-core.js:189-217 | a live agent ages by delta, keeps its brain and energy while moving to a position clamped to [0.25, size - 0.25]; then, on the cell it lands on, it eats, emits, pays its drain and is replaced or kept exactly as `SettleEffects` states, using one noise draw and 131 rng draws only when replaced |
| Lifecycle.TurnEnergy | matrix-evolution/sim-core.js:203-217 | energy stays in (0, 120] over a live agent's turn |
| Lifecycle.TurnOnlyEats | matrix-evolution/sim-core.js:203-206 | a turn changes at most one food cell, and only from 1 to 0 (`TurnOutcome` names the cell and when) |
| Lifecycle.TurnOnlyMarks | matrix-evolution/sim-core.js:208-212 | a turn changes at most one pheromone cell, and only to 255 (`TurnOutcome` names the cell and when) |
| Lifecycle.RunTurnsFrame | matrix-evolution/sim-core.js:188-218 | after k turns the later agents are untouched, no liveness changed, and one noise draw was taken per live agent passed |
| Lifecycle.PassNoiseDraws | matrix-evolution/sim-core.js:191 | a pass takes exactly one noise draw per live agent |
| Lifecycle.RunTurnsOnlyEat | matrix-evolution/sim-core.js:203-206 | over a pass food cells only change from 1 to 0 |
| Lifecycle.RunTurnsOnlyMark | matrix-evolution/sim-core.js:208-212 | over a pass a changed pheromone cell holds 255 |
| Lifecycle.RunTurnsEnergy | matrix-evolution/sim-core.js:203-217 | each live agent processed so far has energy in (0, 120], and no energy exceeds 120 |
| Lifecycle.PassEnergy | matrix-evolution/sim-core.js:183-219 | after a pass every live agent has energy in (0, 120] |
| Lifecycle.ClampScene | matrix-evolution/tests/agents.test.js:22-32 | pushed by -10 from (0.1, 0.1) the agent stops at (0.25, 0.25) |
| Lifecycle.EatScene | matrix-evolution/tests/agents.test.js:34-46 | at 110 on food the agent eats, the cell empties and energy ends at 120 - 0.3 |
| Lifecycle.EmitScene | matrix-evolution/tests/agents.test.js:48-59 | its cell goes to 255 and energy drops by 4 + 0.3 |
| Lifecycle.DepletionScene | matrix-evolution/sim-core.js:214-217 | at 0.05 the agent runs out and is replaced in place by a fresh agent from the next 131 draws; the list keeps its length |
| SimCore.State.UpdateAgents | matrix-evolution/sim-core.js:183-219 | the in-place loop leaves agents, grid and pheromone as `Pass` of the old state, with the draws each source gave |
| SimCore.State.TakeTurn | matrix-evolution/sim-core.js:189-217 | one loop body performs `Turn` |
| SimCore.State.SettleTurn | matrix-evolution/sim-core.js:200-217 | the rest of the body performs `Settle` |
| SimCore.State.Eat | matrix-evolution/sim-core.js:203-206 | clears food on the agent's cell exactly when `Eats`, and reports the energy after it |
| SimCore.State.Emit | matrix-evolution/sim-core.js:208-212 | marks the cell with 255 and charges 4 exactly when out[3] > 0.5 and energy > 5 |
| SimCore.State.Decide | matrix-evolution/sim-core.js:191-192 | `sense` then `decide` or `feedForward` give `Outputs` |
| AlphaFold.ColorForPlddt | alphafold/app.js:12-17 | very high exactly at >= 90, confident exactly on [70, 90), low exactly on [50, 70), very low exactly below 50 |
| AlphaFold.ColorMonotone | alphafold/app.js:12-17 | a higher score never gets a less confident band |
| AlphaFold.ColorExamples | alphafold/app.test.js:10-13 | 95, 75, 55, 10 land in the four bands |
| AlphaFold.ToUpper | alphafold/app.js:19 | upper-casing leaves no lower-case letter, keeps whitespace status and changes nothing else |
| AlphaFold.SpaceCount | alphafold/app.js:19 | no more whitespace than characters |
| AlphaFold.NormalizeSequence | alphafold/app.js:19 | the output has no whitespace and no lower-case letter, and is shorter by exactly the number of whitespace characters |
| AlphaFold.NormalizeFixesNormal | alphafold/app.js:19 | a string with no whitespace and no lower case is unchanged |
| AlphaFold.NormalizeIdempotent | alphafold/app.js:19 | normalising twice equals normalising once |
| AlphaFold.NormalizeConcat | alphafold/app.js:19 | normalising a concatenation concatenates the normalised pieces |
| AlphaFold.NormalizeExample | alphafold/app.test.js:15 | "Abc def" becomes "ABCDEF" |
| AlphaFold.GetModelSource | alphafold/app.js:21-25 | the PDB URL with "pdb" when truthy, else the CIF URL with "cif" when truthy; null exactly when neither is truthy |
| AlphaFold.ModelSourceExample | alphafold/app.test.js:17-21 | with both URLs the PDB file is chosen |
| AlphaFold.BuildConfidenceBars | alphafold/app.js:27-32 | exactly four bars labelled Very high, Confident, Low, Very low, in that order, with the band colours; bar i's fraction is the model's band-i fraction when the model and that field are present, and 0 when either is missing |
| AlphaFold.BarsMatchBands | alphafold/app.js:12-32 | bar i has the colour `colorForPlddt` gives exactly the scores of band i |
| AlphaFold.ConfidenceBarsExample | alphafold/app.test.js:23-31 | four bars, first fraction 0.4, last label "Very low" |
| AlphaFold.Round | alphafold/app.js:34 | `Math.round` gives the integer n with n - 0.5 <= x < n + 0.5 |
| AlphaFold.NatToString | alphafold/app.js:34 | decimal digits with no leading zero |
| AlphaFold.DigitValue | alphafold/app.js:34 | a digit's value names that digit |
| AlphaFold.NatToStringRoundTrip | alphafold/app.js:34 | reading back the digits of n gives n |
| AlphaFold.IntToString | alphafold/app.js:34 | `String(n)` is non-empty and starts with a minus sign exactly when n is negative |
| AlphaFold.IntToStringRoundTrip | alphafold/app.js:34 | reading back `String(n)` gives n, negatives included |
| AlphaFold.FormatPercent | alphafold/app.js:34 | the text is a decimal integer followed by "%", and that integer is the nearest to 100 times the fraction, rounding halves up; a missing fraction counts as 0 |
| AlphaFold.FormatPercentExamples | alphafold/app.js:34 | missing and 0 give "0%", 0.4 gives "40%", 0.125 gives "13%" |
| AlphaFold.CacheKey | alphafold/app.js:42 | the key is "alphafold-prediction:" followed by the qualifier |
| AlphaFold.KeyQualifier | alphafold/app.js:42 | a key has a qualifier exactly when it starts with the prefix |
| AlphaFold.CacheKeyRoundTrip | alphafold/app.js:42 | the qualifier read back from a key is the qualifier, and only the qualifier's key reads back to it |
| AlphaFold.CacheKeyInjective | alphafold/app.js:42 | distinct qualifiers have distinct keys |
| AlphaFold.FirstTruthy | alphafold/app.js:129-158 | an `a \|\| b \|\| ... \|\| d` chain returns the first truthy candidate, every earlier one being falsy, or the default when all are falsy |
| AlphaFold.FirstTruthyAt | alphafold/app.js:129-158 | when the candidates before k are all falsy, candidate k decides if truthy, and the default decides after the last |
| AlphaFold.GetProteinName | alphafold/app.js:129-137 | the model's uniprotDescription, then the summary's proteinName, entryName and uniprotDescription, else the dash |
| AlphaFold.GetUniProtId | alphafold/app.js:139-141 | uniprotId, then entryId, then a non-empty qualifier, else the dash |
| AlphaFold.GetSequenceLength | alphafold/app.js:143-150 | the model sequence's length, then a non-zero summary sequenceLength, then the summary sequence's length, else the dash; a zero length counts as missing |
| AlphaFold.GetSummaryQualifier | alphafold/app.js:152-158 | uniprotAccession, then entryId, else the qualifier as given, even when empty or missing |

## Left out

- `matrix-evolution/app.js` is not part of this model. It repeats the core on module-level globals and adds rendering, sliders and the animation ticker.
- The rest of `alphafold/app.js` is left out: fetching, `localStorage` reads and writes, JSON parsing, the 3Dmol viewer and the DOM.
- Advancing `tick` happens in the host loop, not in `sim-core.js`. The model reads `tick` and never changes it.
- Reproduction, birth and death counters, population floors, selection, `advanceGeneration`, mutation and genes are not in `sim-core.js`. The model follows the code: a depleted agent is replaced in place by `createAgent` (sim-core.js:215-216). The agent tests that expect removal (`tests/agents.test.js:61-70`) or offspring (`tests/agents.test.js:72-91`), and `tests/selection.test.js`, describe a different version of the code. `Lifecycle.DepletionScene` states what the code does in the removal test.
- Floating point: the model computes over exact reals. It does not capture `Float32Array` rounding of weights, hidden units and outputs, or double rounding elsewhere. `formatPercent` values of 1e21 and above, which JavaScript prints in exponent notation, are not modelled.
- `Math.random`, `Math.tanh`, `Math.sin` and `Math.sqrt` are not modelled as functions. They are parameters: streams, and the `Maths` bundle with its range predicates. That is why the default `rng = Math.random` arguments are left out. The default `count = INITIAL_AGENT_COUNT` (60) of `initAgents` is left out too: `SimCore.State.InitAgents` takes the count from its caller.
- `Sensorium.Sense` and `Sensorium.Sensors` require the sensing agent to stand inside the grid. The code does not check this, but every agent that `createAgent` or a move produces does stand inside it (`Agents.FreshAgentPlaced`, `Lifecycle.Walked`).
- `Lifecycle.Decisive`: an injected `decide` must return at least four values, and the model excludes every shorter result. With fewer than two, `undefined * moveSpeed` is NaN, and `clamp` passes NaN through, so the agent's position becomes NaN (sim-core.js:195-198). With two, the missing `outputs[2]` and `outputs[3]` compare as false, so the agent neither eats nor emits; with three, only `outputs[3]` is missing, and the agent never emits.
- `SimCore.State.UpdateAgents` and `Lifecycle.Pass` take noise and rng as two independent streams. By default `noiseFn` and `rng` are both `Math.random`, so the code draws noise and respawn values from one shared, interleaved source. The model does not capture that interleaving.
- Agent identity (`other === agent`) is modelled as the agent's position in the list. `Infinity` as the initial `minDist2` is modelled as `None`.
- `Sensorium.Dist2` states only non-negativity, not that the distance is zero exactly when two agents coincide.
- `makeBrain(0)` computes `Math.sqrt(1 / 0)`. `Controller.Scale2` is 0 there instead, and no weight uses it because w2 is empty.
- `AlphaFold.NormalizeSequence` upper-cases ASCII letters only. `toUpperCase` also maps other scripts, and for some characters (such as `ß`) it changes the length. The full `\s` whitespace class is modelled.
- `AlphaFold` models JSON fields as optional strings, reals or integers. Values of other types (numbers where strings are expected, `NaN`) and their truthiness are not modelled. `formatPercent` treats a missing fraction and 0 alike, as `|| 0` does.
