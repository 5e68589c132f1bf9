/**
 * The food automaton of `stepLife` (matrix-evolution/sim-core.js:76-100) as functions on the
 * old buffer: non-wrapping Moore-neighbour counting, the B3/S23 rule, and the stochastic
 * regrowth that draws one value from `randomFn` for every cell the rule leaves dead, in
 * row-major order.
 */
module Life {
  import opened SimBase

  /** 1 when (nx, ny) lies inside the grid and holds a non-zero cell; out-of-bounds cells read 0. */
  function Occupied(g: seq<byte>, w: nat, h: nat, nx: int, ny: int): nat
    requires |g| == Area(w, h)
  {
    if 0 <= nx < w && 0 <= ny < h && At(g, w, h, nx, ny) != 0 then 1 else 0
  }

  /** The count of row `dy` of the 3x3 block around (x, y), for the offsets dx in [-1, dxEnd), centre skipped. */
  function RowCount(g: seq<byte>, w: nat, h: nat, x: int, y: int, dy: int, dxEnd: int): (count: nat)
    requires |g| == Area(w, h)
    requires -1 <= dxEnd
    decreases dxEnd + 1
  {
    if dxEnd == -1 then 0
    else
      var dx := dxEnd - 1;
      RowCount(g, w, h, x, y, dy, dx) + (if dx == 0 && dy == 0 then 0 else Occupied(g, w, h, x + dx, y + dy))
  }

  /** The count over the rows dy in [-1, dyEnd) of the 3x3 block around (x, y). */
  function BlockCount(g: seq<byte>, w: nat, h: nat, x: int, y: int, dyEnd: int): (count: nat)
    requires |g| == Area(w, h)
    requires -1 <= dyEnd
    decreases dyEnd + 1
  {
    if dyEnd == -1 then 0
    else BlockCount(g, w, h, x, y, dyEnd - 1) + RowCount(g, w, h, x, y, dyEnd - 1, 2)
  }

  /** The eight Moore neighbours, written out: an independent reference for the scan. */
  function MooreSum(g: seq<byte>, w: nat, h: nat, x: int, y: int): nat
    requires |g| == Area(w, h)
  {
    Occupied(g, w, h, x - 1, y - 1) + Occupied(g, w, h, x, y - 1) + Occupied(g, w, h, x + 1, y - 1)
    + Occupied(g, w, h, x - 1, y) + Occupied(g, w, h, x + 1, y)
    + Occupied(g, w, h, x - 1, y + 1) + Occupied(g, w, h, x, y + 1) + Occupied(g, w, h, x + 1, y + 1)
  }

  /** The neighbour count as the scan of offsets in `stepLife` accumulates it: at most 8. */
  function LiveNeighbours(g: seq<byte>, w: nat, h: nat, x: int, y: int): (count: nat)
    requires |g| == Area(w, h)
  {
    BlockCount(g, w, h, x, y, 2)
  }

  /** The scanned count is exactly the count of the eight Moore neighbours, so it never exceeds 8. */
  lemma NeighbourCount(g: seq<byte>, w: nat, h: nat, x: int, y: int)
    requires |g| == Area(w, h)
    ensures LiveNeighbours(g, w, h, x, y) == MooreSum(g, w, h, x, y)
    ensures LiveNeighbours(g, w, h, x, y) <= 8
  {
    assert RowCount(g, w, h, x, y, -1, 2) ==
      Occupied(g, w, h, x - 1, y - 1) + Occupied(g, w, h, x, y - 1) + Occupied(g, w, h, x + 1, y - 1);
    assert RowCount(g, w, h, x, y, 0, 2) == Occupied(g, w, h, x - 1, y) + Occupied(g, w, h, x + 1, y);
    assert RowCount(g, w, h, x, y, 1, 2) ==
      Occupied(g, w, h, x - 1, y + 1) + Occupied(g, w, h, x, y + 1) + Occupied(g, w, h, x + 1, y + 1);
  }

  /**
   * Counting is local and does not wrap: two grids whose cells agree on the eight neighbour
   * positions of (x, y) give the same count, whatever they hold elsewhere (the opposite edge included).
   */
  lemma CountIsLocal(g1: seq<byte>, g2: seq<byte>, w: nat, h: nat, x: int, y: int)
    requires |g1| == Area(w, h) && |g2| == Area(w, h)
    requires forall nx, ny :: x - 1 <= nx <= x + 1 && y - 1 <= ny <= y + 1 ==>
      Occupied(g1, w, h, nx, ny) == Occupied(g2, w, h, nx, ny)
    ensures LiveNeighbours(g1, w, h, x, y) == LiveNeighbours(g2, w, h, x, y)
  {
    NeighbourCount(g1, w, h, x, y);
    NeighbourCount(g2, w, h, x, y);
  }

  /** At the top-left corner only the three in-grid neighbours are counted. */
  lemma CornerCount(g: seq<byte>, w: nat, h: nat)
    requires |g| == Area(w, h) && 2 <= w && 2 <= h
    ensures LiveNeighbours(g, w, h, 0, 0) ==
      Occupied(g, w, h, 1, 0) + Occupied(g, w, h, 0, 1) + Occupied(g, w, h, 1, 1)
  {
    NeighbourCount(g, w, h, 0, 0);
  }

  /** B3/S23: a live cell (value 1) with 2 or 3 neighbours survives, a dead cell with exactly 3 is born. */
  predicate RuleAlive(g: seq<byte>, w: nat, h: nat, x: int, y: int)
    requires |g| == Area(w, h) && 0 <= x < w && 0 <= y < h
  {
    var count := LiveNeighbours(g, w, h, x, y);
    var alive := At(g, w, h, x, y) == 1;
    (alive && (count == 2 || count == 3)) || (!alive && count == 3)
  }

  /**
   * The rule read on the eight Moore neighbours: alive exactly with 3 of them live, or with 2 when
   * the cell itself is live; hence a live result needs 2 or 3, and 3 always gives one.
   */
  lemma RuleAliveCases(g: seq<byte>, w: nat, h: nat, x: int, y: int)
    requires |g| == Area(w, h) && 0 <= x < w && 0 <= y < h
    ensures var n := MooreSum(g, w, h, x, y);
      RuleAlive(g, w, h, x, y) <==> n == 3 || (At(g, w, h, x, y) == 1 && n == 2)
    ensures MooreSum(g, w, h, x, y) == 3 ==> RuleAlive(g, w, h, x, y)
    ensures RuleAlive(g, w, h, x, y) ==> 2 <= MooreSum(g, w, h, x, y) <= 3
    ensures At(g, w, h, x, y) != 1 ==> (RuleAlive(g, w, h, x, y) <==> MooreSum(g, w, h, x, y) == 3)
  {
    NeighbourCount(g, w, h, x, y);
  }

  /** The rule's outcome for every cell of row y, left to right. */
  function RowRule(g: seq<byte>, w: nat, h: nat, y: int): (r: seq<bool>)
    requires |g| == Area(w, h) && 0 <= y < h
    ensures |r| == w
  {
    seq(w, x requires 0 <= x < w => RuleAlive(g, w, h, x, y))
  }

  /** How many entries of `s` are false. */
  function CountFalse(s: seq<bool>): nat
    decreases |s|
  {
    if s == [] then 0 else CountFalse(s[..|s| - 1]) + (if s[|s| - 1] then 0 else 1)
  }

  /** How many cells of row y before column xEnd the rule leaves dead (each consumes one draw). */
  function DrawsInRow(g: seq<byte>, w: nat, h: nat, y: int, xEnd: int): nat
    requires |g| == Area(w, h) && 0 <= y < h && 0 <= xEnd <= w
  {
    CountFalse(RowRule(g, w, h, y)[..xEnd])
  }

  /** The draws each row consumes, top to bottom. */
  function RowTotals(g: seq<byte>, w: nat, h: nat): (r: seq<nat>)
    requires |g| == Area(w, h)
    ensures |r| == h
  {
    seq(h, y requires 0 <= y < h => DrawsInRow(g, w, h, y, w))
  }

  /** The sum of a sequence of counts, accumulated left to right. */
  function Sum(s: seq<nat>): nat
    decreases |s|
  {
    if s == [] then 0 else Sum(s[..|s| - 1]) + s[|s| - 1]
  }

  /** How many draws the rows before yEnd consume. */
  function DrawsBefore(g: seq<byte>, w: nat, h: nat, yEnd: int): nat
    requires |g| == Area(w, h) && 0 <= yEnd <= h
  {
    Sum(RowTotals(g, w, h)[..yEnd])
  }

  /** Finishing row y adds that row's draws. */
  lemma DrawsBeforeStep(g: seq<byte>, w: nat, h: nat, y: int)
    requires |g| == Area(w, h) && 0 <= y < h
    ensures DrawsBefore(g, w, h, y + 1) == DrawsBefore(g, w, h, y) + DrawsInRow(g, w, h, y, w)
  {
    var rows := RowTotals(g, w, h);
    assert rows[..y + 1][..y] == rows[..y];
  }

  /** The number of the draw that cell (x, y) consumes when the rule leaves it dead. */
  function DrawIndex(g: seq<byte>, w: nat, h: nat, x: int, y: int): nat
    requires |g| == Area(w, h) && 0 <= x < w && 0 <= y < h
  {
    DrawsBefore(g, w, h, y) + DrawsInRow(g, w, h, y, x)
  }

  /** Scanning one more cell of a row adds its draw, if the rule leaves it dead. */
  lemma DrawsInRowStep(g: seq<byte>, w: nat, h: nat, y: int, x: int)
    requires |g| == Area(w, h) && 0 <= y < h && 0 <= x < w
    ensures DrawsInRow(g, w, h, y, x + 1) == DrawsInRow(g, w, h, y, x) + (if RuleAlive(g, w, h, x, y) then 0 else 1)
  {
    var row := RowRule(g, w, h, y);
    assert row[..x + 1][..x] == row[..x];
  }

  /** The regrowth threshold `targetFoodDensity * 0.0025`. */
  function RegrowthChance(density: real): real {
    density * 0.0025
  }

  /** The new value of cell (x, y): the rule, else regrowth when its draw falls below the threshold. */
  function LifeCell(g: seq<byte>, w: nat, h: nat, x: int, y: int, density: real, randomFn: Stream): (b: byte)
    requires |g| == Area(w, h) && 0 <= x < w && 0 <= y < h
    ensures b == 0 || b == 1
    ensures RuleAlive(g, w, h, x, y) ==> b == 1
    ensures !RuleAlive(g, w, h, x, y) ==> (b == 1 <==> randomFn(DrawIndex(g, w, h, x, y)) < RegrowthChance(density))
  {
    if RuleAlive(g, w, h, x, y) then 1
    else if randomFn(DrawIndex(g, w, h, x, y)) < RegrowthChance(density) then 1
    else 0
  }

  /** With no draw below the threshold (`randomFn` returning 1, say) the step is plain B3/S23. */
  lemma NoRegrowthIsConway(g: seq<byte>, w: nat, h: nat, x: int, y: int, density: real, randomFn: Stream)
    requires |g| == Area(w, h) && 0 <= x < w && 0 <= y < h
    requires forall n :: randomFn(n) >= RegrowthChance(density)
    ensures LifeCell(g, w, h, x, y, density, randomFn) == 1 <==> RuleAlive(g, w, h, x, y)
  {
  }

  /** With `targetFoodDensity = 0` and draws in [0, 1) nothing regrows. */
  lemma ZeroDensityNeverRegrows(g: seq<byte>, w: nat, h: nat, x: int, y: int, randomFn: Stream)
    requires |g| == Area(w, h) && 0 <= x < w && 0 <= y < h
    requires UnitStream(randomFn)
    ensures LifeCell(g, w, h, x, y, 0.0, randomFn) == 1 <==> RuleAlive(g, w, h, x, y)
  {
    assert randomFn(DrawIndex(g, w, h, x, y)) >= 0.0;
  }

  /** With every draw 0 and a positive density every cell, dead or alive, becomes 1. */
  lemma ZeroDrawsRegrowEverything(g: seq<byte>, w: nat, h: nat, x: int, y: int, density: real, randomFn: Stream)
    requires |g| == Area(w, h) && 0 <= x < w && 0 <= y < h
    requires 0.0 < density && forall n :: randomFn(n) == 0.0
    ensures LifeCell(g, w, h, x, y, density, randomFn) == 1
  {
    assert randomFn(DrawIndex(g, w, h, x, y)) == 0.0;
  }

  /** Counting false entries is monotone in the prefix, and an entry at i is counted before j > i. */
  lemma {:induction false} CountFalseMonotone(s: seq<bool>, i: int, j: int)
    requires 0 <= i < j <= |s|
    ensures CountFalse(s[..i]) + (if s[i] then 0 else 1) <= CountFalse(s[..j])
    decreases j - i
  {
    if j > i + 1 {
      CountFalseMonotone(s, i, j - 1);
      assert s[..j][..j - 1] == s[..j - 1];
    } else {
      assert s[..j][..i] == s[..i];
    }
  }

  /** At most every entry is false. */
  lemma {:induction false} CountFalseBounded(s: seq<bool>)
    ensures CountFalse(s) <= |s|
    decreases |s|
  {
    if s != [] {
      CountFalseBounded(s[..|s| - 1]);
    }
  }

  /** A sum of counts is monotone in the prefix, and the entry at i is added before j > i. */
  lemma {:induction false} SumMonotone(s: seq<nat>, i: int, j: int)
    requires 0 <= i < j <= |s|
    ensures Sum(s[..i]) + s[i] <= Sum(s[..j])
    decreases j - i
  {
    if j > i + 1 {
      SumMonotone(s, i, j - 1);
      assert s[..j][..j - 1] == s[..j - 1];
    } else {
      assert s[..j][..i] == s[..i];
    }
  }

  /**
   * Each cell the rule leaves dead gets its own draw: draw numbers grow strictly in row-major
   * order, so no two cells share a random value (regrowth chances are independent).
   */
  lemma {:induction false} DrawsAreDistinct(g: seq<byte>, w: nat, h: nat, x1: int, y1: int, x2: int, y2: int)
    requires |g| == Area(w, h) && 0 <= x1 < w && 0 <= y1 < h && 0 <= x2 < w && 0 <= y2 < h
    requires y1 < y2 || (y1 == y2 && x1 < x2)
    requires !RuleAlive(g, w, h, x1, y1)
    ensures DrawIndex(g, w, h, x1, y1) < DrawIndex(g, w, h, x2, y2)
  {
    var row := RowRule(g, w, h, y1);
    if y1 == y2 {
      CountFalseMonotone(row, x1, x2);
    } else {
      CountFalseMonotone(row, x1, w);
      SumMonotone(RowTotals(g, w, h), y1, y2);
    }
  }

  /** A whole step consumes at most one draw per cell. */
  lemma {:induction false} DrawsBounded(g: seq<byte>, w: nat, h: nat, yEnd: int)
    requires |g| == Area(w, h) && 0 <= yEnd <= h
    ensures DrawsBefore(g, w, h, yEnd) <= Mul(yEnd, w)
    decreases yEnd
  {
    if yEnd > 0 {
      DrawsBounded(g, w, h, yEnd - 1);
      DrawsBeforeStep(g, w, h, yEnd - 1);
      CountFalseBounded(RowRule(g, w, h, yEnd - 1)[..w]);
    }
  }

  /** Row y of the next generation, left to right. */
  function NextRow(g: seq<byte>, w: nat, h: nat, y: int, density: real, randomFn: Stream): (r: seq<byte>)
    requires |g| == Area(w, h) && 0 <= y < h
    ensures |r| == w
  {
    seq(w, x requires 0 <= x < w => LifeCell(g, w, h, x, y, density, randomFn))
  }

  /** The rows before yEnd of the next generation, laid out row-major. */
  function NextRows(g: seq<byte>, w: nat, h: nat, yEnd: int, density: real, randomFn: Stream): (r: seq<byte>)
    requires |g| == Area(w, h) && 0 <= yEnd <= h
    ensures |r| == Mul(yEnd, w)
    decreases yEnd
  {
    if yEnd == 0 then [] else NextRows(g, w, h, yEnd - 1, density, randomFn) + NextRow(g, w, h, yEnd - 1, density, randomFn)
  }

  /** The whole next generation: the buffer `stepLife` fills and then makes current. */
  function NextGrid(g: seq<byte>, w: nat, h: nat, density: real, randomFn: Stream): (r: seq<byte>)
    requires |g| == Area(w, h)
    ensures |r| == |g|
  {
    NextRows(g, w, h, h, density, randomFn)
  }

  /** A buffer whose cells start..start + w are the `LifeCell`s of row y holds `NextRow` there. */
  lemma NextRowFromCells(g: seq<byte>, w: nat, h: nat, y: int, density: real, randomFn: Stream, a: seq<byte>, start: nat)
    requires |g| == Area(w, h) && 0 <= y < h && start + w <= |a|
    requires forall k :: 0 <= k < w ==> a[start + k] == LifeCell(g, w, h, k, y, density, randomFn)
    ensures a[start..start + w] == NextRow(g, w, h, y, density, randomFn)
  {
    var row := NextRow(g, w, h, y, density, randomFn);
    forall k | 0 <= k < w
      ensures a[start..start + w][k] == row[k]
    {
      assert a[start..start + w][k] == a[start + k];
    }
  }

  /** A buffer holding the rows before y followed by row y holds the rows before y + 1. */
  lemma NextRowsExtend(g: seq<byte>, w: nat, h: nat, y: int, density: real, randomFn: Stream, a: seq<byte>)
    requires |g| == Area(w, h) && 0 <= y < h && Mul(y, w) + w <= |a|
    requires a[..Mul(y, w)] == NextRows(g, w, h, y, density, randomFn)
    requires a[Mul(y, w)..Mul(y, w) + w] == NextRow(g, w, h, y, density, randomFn)
    ensures Mul(y + 1, w) == Mul(y, w) + w
    ensures a[..Mul(y + 1, w)] == NextRows(g, w, h, y + 1, density, randomFn)
  {
    var lo := Mul(y, w);
    assert Mul(y + 1, w) == lo + w;
    assert a[..lo + w] == a[..lo] + a[lo..lo + w];
  }

  /** The rows laid out up to yEnd begin with the rows laid out up to any earlier y. */
  lemma {:induction false} NextRowsPrefix(g: seq<byte>, w: nat, h: nat, y: int, yEnd: int, density: real, randomFn: Stream)
    requires |g| == Area(w, h) && 0 <= y <= yEnd <= h
    ensures Mul(y, w) <= Mul(yEnd, w)
      && NextRows(g, w, h, yEnd, density, randomFn)[..Mul(y, w)] == NextRows(g, w, h, y, density, randomFn)
    decreases yEnd
  {
    if y < yEnd {
      var before := NextRows(g, w, h, yEnd - 1, density, randomFn);
      var row := NextRow(g, w, h, yEnd - 1, density, randomFn);
      NextRowsPrefix(g, w, h, y, yEnd - 1, density, randomFn);
      assert NextRows(g, w, h, yEnd, density, randomFn) == before + row;
      assert (before + row)[..Mul(y, w)] == before[..Mul(y, w)];
    }
  }

  /** Cell (x, y) of the rows laid out so far is cell x of row y. */
  lemma NextRowsAt(g: seq<byte>, w: nat, h: nat, yEnd: int, density: real, randomFn: Stream, x: int, y: int)
    requires |g| == Area(w, h) && 0 <= yEnd <= h && 0 <= x < w && 0 <= y < yEnd
    ensures Idx(w, x, y) < Mul(yEnd, w)
      && NextRows(g, w, h, yEnd, density, randomFn)[Idx(w, x, y)] == NextRow(g, w, h, y, density, randomFn)[x]
  {
    NextRowsPrefix(g, w, h, y + 1, yEnd, density, randomFn);
    PrefixAt(NextRows(g, w, h, yEnd, density, randomFn), NextRows(g, w, h, y, density, randomFn),
      NextRow(g, w, h, y, density, randomFn), Mul(y + 1, w), x);
  }

  /** A sequence beginning with `before + row` holds `row[x]` at `|before| + x`. */
  lemma PrefixAt<T>(s: seq<T>, before: seq<T>, row: seq<T>, k: nat, x: int)
    requires k <= |s| && s[..k] == before + row && 0 <= x < |row|
    ensures |before| + x < |s| && s[|before| + x] == row[x]
  {
    assert s[..k][|before| + x] == (before + row)[|before| + x];
  }

  /** Every cell of the next generation is its cell's `LifeCell`, so it is 0 or 1. */
  lemma NextGridAt(g: seq<byte>, w: nat, h: nat, density: real, randomFn: Stream, x: int, y: int)
    requires |g| == Area(w, h) && 0 <= x < w && 0 <= y < h
    ensures Idx(w, x, y) < |g|
      && NextGrid(g, w, h, density, randomFn)[Idx(w, x, y)] == LifeCell(g, w, h, x, y, density, randomFn)
      && NextGrid(g, w, h, density, randomFn)[Idx(w, x, y)] <= 1
  {
    NextRowsAt(g, w, h, h, density, randomFn, x, y);
    assert NextRow(g, w, h, y, density, randomFn)[x] == LifeCell(g, w, h, x, y, density, randomFn);
  }

  /** `seedFood(state, density, rng)`: cell i is food exactly when its draw falls below the density. */
  function Seeded(n: nat, density: real, rng: Stream): (r: seq<byte>)
    ensures |r| == n
    ensures forall i :: 0 <= i < n ==> (r[i] == 1 <==> rng(i) < density) && r[i] <= 1
  {
    seq(n, i requires 0 <= i < n => if rng(i) < density then 1 else 0)
  }

  /** With draws in [0, 1), density 0 seeds no food and density 1 seeds food everywhere. */
  lemma SeededExtremes(n: nat, rng: Stream)
    requires UnitStream(rng)
    ensures forall i :: 0 <= i < n ==> Seeded(n, 0.0, rng)[i] == 0
    ensures forall i :: 0 <= i < n ==> Seeded(n, 1.0, rng)[i] == 1
  {
    forall i | 0 <= i < n
      ensures Seeded(n, 0.0, rng)[i] == 0 && Seeded(n, 1.0, rng)[i] == 1
    {
      assert 0.0 <= rng(i) < 1.0;
    }
  }

  /** The grid of the first scenario of tests/life.test.js: live cells (1,1), (1,0), (0,1) on 3x3. */
  const Survival: seq<byte> := [0, 1, 0, 1, 1, 0, 0, 0, 0]

  /** In that scenario the centre has 2 neighbours and survives; with every draw 1 nothing else matters. */
  lemma SurvivalScenario(density: real, randomFn: Stream)
    requires density <= 1.0 && forall n :: randomFn(n) == 1.0
    ensures LiveNeighbours(Survival, 3, 3, 1, 1) == 2
    ensures LifeCell(Survival, 3, 3, 1, 1, density, randomFn) == 1
  {
    SurvivalCount();
    assert At(Survival, 3, 3, 1, 1) == 1;
  }

  /** The scan counts the two live neighbours of the centre of `Survival`. */
  lemma SurvivalCount()
    ensures LiveNeighbours(Survival, 3, 3, 1, 1) == 2
  {
    NeighbourCount(Survival, 3, 3, 1, 1);
    SurvivalNeighbours();
  }

  /** The centre of `Survival` has the live neighbours (1,0) and (0,1) and no other. */
  lemma SurvivalNeighbours()
    ensures MooreSum(Survival, 3, 3, 1, 1) == 2
  {
    assert Occupied(Survival, 3, 3, 0, 0) == 0 && Occupied(Survival, 3, 3, 1, 0) == 1;
    assert Occupied(Survival, 3, 3, 2, 0) == 0 && Occupied(Survival, 3, 3, 0, 1) == 1;
    assert Occupied(Survival, 3, 3, 2, 1) == 0 && Occupied(Survival, 3, 3, 0, 2) == 0;
    assert Occupied(Survival, 3, 3, 1, 2) == 0 && Occupied(Survival, 3, 3, 2, 2) == 0;
  }

  /**
   * Live cells (0,0), (1,0), (0,1) on 3x3: cell (1,0), index 1, has the two live neighbours (0,0)
   * and (0,1) and stays alive; the dead centre has exactly 3 live neighbours and is born.
   */
  const Birth: seq<byte> := [1, 1, 0, 1, 0, 0, 0, 0, 0]

  lemma BirthScenario(density: real, randomFn: Stream)
    requires density <= 1.0 && forall n :: randomFn(n) == 1.0
    ensures LiveNeighbours(Birth, 3, 3, 1, 0) == 2
    ensures LifeCell(Birth, 3, 3, 1, 0, density, randomFn) == 1
    ensures LiveNeighbours(Birth, 3, 3, 1, 1) == 3
    ensures LifeCell(Birth, 3, 3, 1, 1, density, randomFn) == 1
  {
    BirthEdgeSurvives(density, randomFn);
    BirthCentreBorn(density, randomFn);
  }

  /** Cell (1,0) of `Birth`, live with two live neighbours, survives. */
  lemma BirthEdgeSurvives(density: real, randomFn: Stream)
    ensures LiveNeighbours(Birth, 3, 3, 1, 0) == 2
    ensures LifeCell(Birth, 3, 3, 1, 0, density, randomFn) == 1
  {
    BirthEdgeCount();
    assert At(Birth, 3, 3, 1, 0) == 1;
  }

  /** The scan counts the two live neighbours of cell (1,0) of `Birth`. */
  lemma BirthEdgeCount()
    ensures LiveNeighbours(Birth, 3, 3, 1, 0) == 2
  {
    NeighbourCount(Birth, 3, 3, 1, 0);
    BirthEdgeNeighbours();
  }

  /** The dead centre of `Birth`, with three live neighbours, is born. */
  lemma BirthCentreBorn(density: real, randomFn: Stream)
    ensures LiveNeighbours(Birth, 3, 3, 1, 1) == 3
    ensures LifeCell(Birth, 3, 3, 1, 1, density, randomFn) == 1
  {
    BirthCentreCount();
  }

  /** The scan counts the three live neighbours of the centre of `Birth`. */
  lemma BirthCentreCount()
    ensures LiveNeighbours(Birth, 3, 3, 1, 1) == 3
  {
    NeighbourCount(Birth, 3, 3, 1, 1);
    BirthCentreNeighbours();
  }

  /** Cell (1,0) of `Birth` has the live neighbours (0,0) and (0,1) and no other. */
  lemma BirthEdgeNeighbours()
    ensures MooreSum(Birth, 3, 3, 1, 0) == 2
  {
    assert Mul(1, 3) == 3;
    assert At(Birth, 3, 3, 0, 0) == 1 && At(Birth, 3, 3, 2, 0) == 0;
    assert At(Birth, 3, 3, 0, 1) == 1 && At(Birth, 3, 3, 1, 1) == 0 && At(Birth, 3, 3, 2, 1) == 0;
  }

  /** The centre of `Birth` has the live neighbours (0,0), (1,0) and (0,1) and no other. */
  lemma BirthCentreNeighbours()
    ensures MooreSum(Birth, 3, 3, 1, 1) == 3
  {
    assert Occupied(Birth, 3, 3, 0, 0) == 1 && Occupied(Birth, 3, 3, 1, 0) == 1;
    assert Occupied(Birth, 3, 3, 2, 0) == 0 && Occupied(Birth, 3, 3, 0, 1) == 1;
    assert Occupied(Birth, 3, 3, 2, 1) == 0 && Occupied(Birth, 3, 3, 0, 2) == 0;
    assert Occupied(Birth, 3, 3, 1, 2) == 0 && Occupied(Birth, 3, 3, 2, 2) == 0;
  }
}
