/** Pheromone decay of `decayPheromone` (matrix-evolution/sim-core.js:102-108) on values. */
module Pheromone {
  import opened SimBase

  /** One decay step of one cell: an absolute decrement of PHEROMONE_DECAY, floored at 0. */
  function Decayed(v: byte): (r: byte)
    ensures r as int == if v as int > PHEROMONE_DECAY as int then v as int - PHEROMONE_DECAY as int else 0
    ensures r <= v
    ensures r == 0 <==> v <= PHEROMONE_DECAY
  {
    if v > PHEROMONE_DECAY then v - PHEROMONE_DECAY else 0
  }

  /** One decay step of a whole buffer. */
  function DecayAll(s: seq<byte>): (r: seq<byte>)
    ensures |r| == |s|
    ensures forall i :: 0 <= i < |s| ==> r[i] == Decayed(s[i])
  {
    seq(|s|, i requires 0 <= i < |s| => Decayed(s[i]))
  }

  /** `n` decay steps of one cell. */
  function DecayedTimes(v: byte, n: nat): byte
    decreases n
  {
    if n == 0 then v else Decayed(DecayedTimes(v, n - 1))
  }

  /** After `n` steps a cell holds `max(0, v - 3 n)`. */
  lemma {:induction false} DecayedTimesValue(v: byte, n: nat)
    ensures DecayedTimes(v, n) as int == if v as int > 3 * n then v as int - 3 * n else 0
    decreases n
  {
    if n > 0 {
      DecayedTimesValue(v, n - 1);
    }
  }

  /** Repeated decay reaches exactly 0 in at most ceil(v / 3) steps and stays there. */
  lemma DecayReachesZero(v: byte, n: nat)
    requires 3 * n >= v as int
    ensures DecayedTimes(v, n) == 0
    ensures DecayedTimes(v, n + 1) == 0
  {
    DecayedTimesValue(v, n);
    DecayedTimesValue(v, n + 1);
  }

  /** The example of tests/pheromone.test.js: [1, 3, 4, 10] decays to [0, 0, 1, 7]. */
  lemma DecayExample()
    ensures DecayAll([1, 3, 4, 10]) == [0, 0, 1, 7]
  {
  }
}
