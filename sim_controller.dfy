/**
 * The controller of matrix-evolution/sim-core.js: `makeBrain` (lines 44-52) and the two-layer
 * tanh network `feedForward` (lines 159-181) over flat weight arrays, without biases.
 */
module Controller {
  import opened SimBase

  /** Width of the sensor vector and of the action vector. */
  const INPUTS: nat := 12
  const OUTPUTS: nat := 4

  /** `{ hiddenSize, w1, w2 }`: w1 holds row h of the first layer at h * inputs, w2 row o at o * hiddenSize. */
  datatype Brain = Brain(hiddenSize: nat, w1: seq<real>, w2: seq<real>)

  /** The weight arrays are long enough for `n` inputs: every index `feedForward` reads exists. */
  predicate Fits(b: Brain, n: nat) {
    |b.w1| >= Mul(b.hiddenSize, n) && |b.w2| >= Mul(OUTPUTS, b.hiddenSize)
  }

  /** `sum += xs[i] * w[base + i]` for i in [0, n), accumulated left to right. */
  function Dot(xs: seq<real>, w: seq<real>, base: nat, n: nat): real
    requires n <= |xs| && base + n <= |w|
    decreases n
  {
    if n == 0 then 0.0 else Dot(xs, w, base, n - 1) + xs[n - 1] * w[base + n - 1]
  }

  /** A row of zero weights, or zero inputs, contributes nothing to the sum. */
  lemma {:induction false} DotOfZeros(xs: seq<real>, w: seq<real>, base: nat, n: nat)
    requires n <= |xs| && base + n <= |w|
    requires (forall i :: base <= i < base + n ==> w[i] == 0.0) || (forall i :: 0 <= i < n ==> xs[i] == 0.0)
    ensures Dot(xs, w, base, n) == 0.0
    decreases n
  {
    if n > 0 {
      DotOfZeros(xs, w, base, n - 1);
    }
  }

  /** A fully connected tanh layer: unit r is `tanh` of `xs[..n]` against w[r * n .. r * n + n). */
  function Layer(xs: seq<real>, w: seq<real>, rows: nat, n: nat, tanh: real -> real): (r: seq<real>)
    requires n <= |xs| && Mul(rows, n) <= |w|
    ensures |r| == rows
    ensures UnitRange(tanh) ==> forall k :: 0 <= k < |r| ==> -1.0 <= r[k] <= 1.0
  {
    seq(rows, k requires 0 <= k < rows =>
      MulRowsBefore(k, rows, n);
      tanh(Dot(xs, w, Mul(k, n), n)))
  }

  /** The hidden layer: unit h reads w1[h * n .. h * n + n) for n inputs. */
  function HiddenLayer(b: Brain, inputs: seq<real>, tanh: real -> real): (r: seq<real>)
    requires Fits(b, |inputs|)
    ensures |r| == b.hiddenSize
    ensures UnitRange(tanh) ==> forall h :: 0 <= h < |r| ==> -1.0 <= r[h] <= 1.0
  {
    Layer(inputs, b.w1, b.hiddenSize, |inputs|, tanh)
  }

  /** The output layer: output o reads w2[o * H .. o * H + H) against the hidden layer. */
  function Forward(b: Brain, inputs: seq<real>, tanh: real -> real): (out: seq<real>)
    requires Fits(b, |inputs|)
    ensures |out| == OUTPUTS
    ensures UnitRange(tanh) ==> forall o :: 0 <= o < |out| ==> -1.0 <= out[o] <= 1.0
  {
    Layer(HiddenLayer(b, inputs, tanh), b.w2, OUTPUTS, b.hiddenSize, tanh)
  }

  /** The inner loop of both layers of `feedForward`: `sum += xs[i] * w[idxW++]` for i in [0, n). */
  method AccumulateRow(xs: seq<real>, w: seq<real>, idxW: nat, n: nat) returns (sum: real, next: nat)
    requires n <= |xs| && idxW + n <= |w|
    ensures sum == Dot(xs, w, idxW, n)
    ensures next == idxW + n
  {
    sum, next := 0.0, idxW;
    for i := 0 to n
      invariant next == idxW + i
      invariant sum == Dot(xs, w, idxW, i)
    {
      sum := sum + xs[i] * w[next];
      next := next + 1;
    }
  }

  /** One layer loop of `feedForward`: a running weight index walks w row by row. */
  method ApplyLayer(xs: seq<real>, w: seq<real>, rows: nat, n: nat, tanh: real -> real) returns (out: seq<real>)
    requires n <= |xs| && Mul(rows, n) <= |w|
    ensures out == Layer(xs, w, rows, n, tanh)
  {
    ghost var layer := Layer(xs, w, rows, n, tanh);
    var acts := new real[rows];
    var idxW := 0;
    for r := 0 to rows
      invariant idxW == Mul(r, n)
      invariant forall k :: 0 <= k < r ==> acts[k] == layer[k]
    {
      MulRowsBefore(r, rows, n);
      var sum;
      sum, idxW := AccumulateRow(xs, w, idxW, n);
      acts[r] := tanh(sum);
    }
    out := acts[..];
  }

  /** `feedForward(agent, inputs)`: the hidden layer over the inputs, then the outputs over it. */
  method FeedForward(brain: Brain, inputs: seq<real>, tanh: real -> real) returns (outputs: seq<real>)
    requires Fits(brain, |inputs|)
    ensures outputs == Forward(brain, inputs, tanh)
  {
    var hidden := ApplyLayer(inputs, brain.w1, brain.hiddenSize, |inputs|, tanh);
    outputs := ApplyLayer(hidden, brain.w2, OUTPUTS, brain.hiddenSize, tanh);
  }

  /** A dot product against a weight row that is 1 at its start and 0 after reads the first input. */
  lemma {:induction false} DotLeadingUnit(xs: seq<real>, w: seq<real>, n: nat)
    requires 1 <= n <= |xs| && n <= |w|
    requires w[0] == 1.0 && forall k :: 1 <= k < n ==> w[k] == 0.0
    ensures Dot(xs, w, 0, n) == xs[0]
    decreases n
  {
    if n > 1 {
      DotLeadingUnit(xs, w, n - 1);
    }
  }

  /**
   * The network of tests/feedforward.test.js: one hidden unit, w1 = [1, 0, ..., 0], w2 = [1, 1, 1, 1].
   * Every output is tanh(tanh(x)) for the first input x.
   */
  lemma UnitWeightNetwork(inputs: seq<real>, tanh: real -> real)
    requires |inputs| == INPUTS
    ensures Fits(Brain(1, [1.0] + seq(11, _ => 0.0), [1.0, 1.0, 1.0, 1.0]), |inputs|)
    ensures Forward(Brain(1, [1.0] + seq(11, _ => 0.0), [1.0, 1.0, 1.0, 1.0]), inputs, tanh)
      == seq(OUTPUTS, _ => tanh(tanh(inputs[0])))
  {
    var b := Brain(1, [1.0] + seq(11, _ => 0.0), [1.0, 1.0, 1.0, 1.0]);
    assert Mul(1, 12) == 12;
    DotLeadingUnit(inputs, b.w1, 12);
    var hidden := HiddenLayer(b, inputs, tanh);
    assert hidden == [tanh(inputs[0])];
    var out := Forward(b, inputs, tanh);
    forall o | 0 <= o < OUTPUTS
      ensures out[o] == tanh(tanh(inputs[0]))
    {
      MulRowsBefore(o, OUTPUTS, 1);
      assert b.w2[Mul(o, 1)] == 1.0;
    }
  }

  /** `Math.sqrt(1 / 12)`, the scale of the first layer's initial weights. */
  function Scale1(sqrt: real -> real): real {
    sqrt(1.0 / 12.0)
  }

  /** `Math.sqrt(1 / hiddenSize)`; with no hidden units no second-layer weight exists to use it. */
  function Scale2(hiddenSize: nat, sqrt: real -> real): real {
    if hiddenSize == 0 then 0.0 else sqrt(1.0 / hiddenSize as real)
  }

  /** How many draws `makeBrain` takes from its rng. */
  function BrainDraws(hiddenSize: nat): nat {
    Mul(hiddenSize, INPUTS) + Mul(OUTPUTS, hiddenSize)
  }

  /** `count` weights `(rng() * 2 - 1) * scale`, i.e. `randomFloat(-scale, scale)`, from the draws at, at + 1, .... */
  function Uniform(rng: Stream, at: nat, count: nat, scale: real): (r: seq<real>)
    ensures |r| == count
  {
    seq(count, i requires 0 <= i < count => RandomFloat(rng(at + i), -scale, scale))
  }

  /** With draws in [0, 1) and a non-negative scale every uniform weight lies in [-scale, scale]. */
  lemma UniformBounded(rng: Stream, at: nat, count: nat, scale: real)
    requires UnitStream(rng) && 0.0 <= scale
    ensures forall i :: 0 <= i < count ==> -scale <= Uniform(rng, at, count, scale)[i] <= scale
  {
    forall i | 0 <= i < count
      ensures -scale <= Uniform(rng, at, count, scale)[i] <= scale
    {
      assert 0.0 <= rng(at + i) < 1.0;
      assert Uniform(rng, at, count, scale)[i] == RandomFloat(rng(at + i), -scale, scale);
    }
  }

  /** The brain `makeBrain(hiddenSize, rng)` builds from the draws at, at + 1, ...: w1 first, then w2. */
  function BrainFrom(hiddenSize: nat, rng: Stream, at: nat, sqrt: real -> real): (b: Brain)
    ensures b.hiddenSize == hiddenSize
    ensures |b.w1| == Mul(hiddenSize, INPUTS) && |b.w2| == Mul(OUTPUTS, hiddenSize)
    ensures forall i :: 0 <= i < |b.w1| ==> b.w1[i] == RandomFloat(rng(at + i), -Scale1(sqrt), Scale1(sqrt))
  {
    var n1 := Mul(hiddenSize, INPUTS);
    Brain(hiddenSize,
          Uniform(rng, at, n1, Scale1(sqrt)),
          Uniform(rng, at + n1, Mul(OUTPUTS, hiddenSize), Scale2(hiddenSize, sqrt)))
  }

  /**
   * A fresh brain fits the 12-input sensor vector exactly, and with draws in [0, 1) and a
   * non-negative square root every weight lies within its layer's scale.
   */
  lemma BrainFromShape(hiddenSize: nat, rng: Stream, at: nat, sqrt: real -> real)
    ensures var b := BrainFrom(hiddenSize, rng, at, sqrt);
      && b.hiddenSize == hiddenSize
      && |b.w1| == Mul(hiddenSize, INPUTS) && |b.w2| == Mul(OUTPUTS, hiddenSize)
      && Fits(b, INPUTS)
    ensures UnitStream(rng) && (forall v :: 0.0 <= v ==> 0.0 <= sqrt(v)) ==>
      var b := BrainFrom(hiddenSize, rng, at, sqrt);
      && (forall i :: 0 <= i < |b.w1| ==> -Scale1(sqrt) <= b.w1[i] <= Scale1(sqrt))
      && (forall i :: 0 <= i < |b.w2| ==> -Scale2(hiddenSize, sqrt) <= b.w2[i] <= Scale2(hiddenSize, sqrt))
  {
    if UnitStream(rng) && (forall v :: 0.0 <= v ==> 0.0 <= sqrt(v)) {
      var n1 := Mul(hiddenSize, INPUTS);
      assert 0.0 <= Scale1(sqrt);
      assert 0.0 <= Scale2(hiddenSize, sqrt);
      UniformBounded(rng, at, n1, Scale1(sqrt));
      UniformBounded(rng, at + n1, Mul(OUTPUTS, hiddenSize), Scale2(hiddenSize, sqrt));
    }
  }

  /** One weight loop of `makeBrain`: `arr[i] = randomFloat(-scale, scale)` for each i in order. */
  method FillUniform(rng: Stream, at: nat, count: nat, scale: real) returns (weights: seq<real>)
    ensures weights == Uniform(rng, at, count, scale)
  {
    var arr := new real[count];
    for i := 0 to count
      invariant forall k :: 0 <= k < i ==> arr[k] == RandomFloat(rng(at + k), -scale, scale)
    {
      arr[i] := RandomFloat(rng(at + i), -scale, scale);
    }
    weights := arr[..];
  }

  /** `makeBrain(hiddenSize, rng)`: fills both weight arrays in order from the injected draws. */
  method MakeBrain(hiddenSize: nat, rng: Stream, at: nat, sqrt: real -> real) returns (brain: Brain)
    ensures brain == BrainFrom(hiddenSize, rng, at, sqrt)
  {
    var n1 := Mul(hiddenSize, INPUTS);
    var weights1 := FillUniform(rng, at, n1, Scale1(sqrt));
    var weights2 := FillUniform(rng, at + n1, Mul(OUTPUTS, hiddenSize), Scale2(hiddenSize, sqrt));
    brain := Brain(hiddenSize, weights1, weights2);
  }
}
