/** The position-cost score: a frequency-weighted geometric mean of per-key
    costs, penalised further by badly placed blanks. The logarithm and the
    exponential are not modelled; they are a parameter `math`, and everything
    around them (which keys are costed, with which cost, how the weights
    accumulate, the zero guard and the clamp) is.

    The table of base costs has ten columns, but the character index also
    holds characters of the eleventh key of the home row (the fixed ー and ・),
    so the code as written indexes past the table for them; the model keeps
    that version apart (`CalcPositionCostAsWritten`) and the evaluator uses the
    version that leaves such keys out (`CalcPositionCost`). */
module PositionCost {
  import opened Common
  import opened Layouts
  import opened Totals
  import opened NgramScores
  import opened LayoutSearch

  /** The natural logarithm, the exponential and the real power `x.powf(y)`,
      as the caller provides them. */
  datatype Math = Math(ln: real -> real, exp: real -> real, powf: (real, real) -> real)

  /** Base cost of each key of the ten main columns (1.0 is best). */
  const BASE_COST: seq<seq<real>> := [
    [4.0, 2.0, 2.0, 2.0, 3.0, 4.0, 2.0, 2.0, 2.0, 4.0],
    [2.0, 1.0, 1.0, 1.0, 2.0, 2.0, 1.0, 1.0, 1.0, 2.0],
    [4.0, 3.0, 2.0, 2.0, 4.0, 3.0, 2.0, 2.0, 2.0, 4.0]]

  /** A key the base-cost table has an entry for. */
  predicate InTable(p: KeyPos)
  {
    p.row < ROWS && p.col < COLS
  }

  lemma BaseCostShape()
    ensures |BASE_COST| == ROWS && forall r :: 0 <= r < ROWS ==> |BASE_COST[r]| == COLS
    ensures forall r, c :: 0 <= r < ROWS && 0 <= c < COLS ==> 1.0 <= BASE_COST[r][c] <= 4.0
    ensures forall r, c :: 0 <= r < ROWS && 0 <= c < COLS ==> (BASE_COST[r][c] == 1.0 <==> r == 1 && c in {1, 2, 3, 6, 7, 8})
  {
  }

  /** The shift factor: 1 on layer 0, 1.05 on the others, and on the ☆ and ★
      layers three times that plus 27 for the keys above and below the shift
      key ("Ver") and 9 for the keys beyond it toward the little finger ("Out"). */
  function LayerMultiplier(p: KeyPos): real
  {
    var layerPenalty := if p.layer == 0 then 1.0 else 1.05;
    if p.layer == 1 then
      3.0 * layerPenalty + (if p.col == 7 && p.row != 1 then 27.0 else 0.0) + (if p.col >= 8 then 9.0 else 0.0)
    else if p.layer == 2 then
      3.0 * layerPenalty + (if p.col == 2 && p.row != 1 then 27.0 else 0.0) + (if p.col <= 1 then 9.0 else 0.0)
    else layerPenalty
  }

  function KeyCost(p: KeyPos): real
    requires InTable(p)
  {
    BASE_COST[p.row][p.col] * LayerMultiplier(p)
  }

  /** Every cost lies between 1 and 4 × (3.15 + 27); 1 is reached exactly on
      the six unshifted home keys of base cost 1. */
  lemma KeyCostBounds(p: KeyPos)
    requires InTable(p)
    ensures 1.0 <= KeyCost(p) <= 120.6
    ensures KeyCost(p) == 1.0 <==> p.layer == 0 && p.row == 1 && p.col in {1, 2, 3, 6, 7, 8}
  {
    BaseCostShape();
    var b := BASE_COST[p.row][p.col];
    var m := LayerMultiplier(p);
    assert 1.0 <= m <= 30.15;
    assert b * m >= 1.0 * m;
    assert b * m <= 4.0 * m;
    if b * m == 1.0 {
      assert b == 1.0 && m == 1.0;
    }
  }

  // ---------------------------------------------------------------------------
  // The characters of the corpus
  // ---------------------------------------------------------------------------

  /** The key the index gives for a 1-gram, when the table has an entry for it. */
  predicate Costed(charMap: CharMap, gram: string)
  {
    PosOf(charMap, gram, 0).Some? && InTable(PosOf(charMap, gram, 0).value)
  }

  /** A 1-gram whose key is outside the ten-column table. */
  predicate OutOfTable(charMap: CharMap, gram: string)
  {
    PosOf(charMap, gram, 0).Some? && !InTable(PosOf(charMap, gram, 0).value)
  }

  /** `freq * (-(cost).ln())` for a character typed `count` times at `p`. */
  function CharLog(count: real, p: KeyPos, math: Math): real
    requires InTable(p)
  {
    count * -math.ln(KeyCost(p))
  }

  /** What one 1-gram adds to the log-sum and to the weight: nothing unless
      the index places its character on a key of the table. */
  function CharContribution(count: real, pos: Option<KeyPos>, math: Math): (real, real)
  {
    if pos.Some? && InTable(pos.value) then (CharLog(count, pos.value, math), count) else (0.0, 0.0)
  }

  /** The two sums of the first loop. */
  datatype CharPart = LogPart | FreqPart

  function CharGet(acc: (real, real), part: CharPart): real
  {
    if part == LogPart then acc.0 else acc.1
  }

  /** What one entry of the 1-gram map adds to one sum: `freq × ln(1 / cost)`
      to the log-sum, `freq` to the weight. */
  function CharTerm(freq: map<string, nat>, charMap: CharMap, math: Math, part: CharPart): string -> real
  {
    gram => CharGet(CharContribution(CountOf(freq, gram), PosOf(charMap, gram, 0), math), part)
  }

  /** `logSum` and `totalFreq` are the totals of the entries `keys`, taken in
      any order. */
  ghost predicate CharTotals(logSum: real, totalFreq: real, keys: set<string>, freq: map<string, nat>, charMap: CharMap, math: Math)
  {
    forall part :: CharGet((logSum, totalFreq), part) == Total(keys, CharTerm(freq, charMap, math, part))
  }

  /** The log-sum and the weight of all the entries of the 1-gram map. */
  ghost function CharSums(freq: map<string, nat>, charMap: CharMap, math: Math): (real, real)
  {
    (Total(freq.Keys, CharTerm(freq, charMap, math, LogPart)), Total(freq.Keys, CharTerm(freq, charMap, math, FreqPart)))
  }

  lemma CharTotalsInsert(logSum: real, totalFreq: real, keys: set<string>, freq: map<string, nat>, charMap: CharMap, math: Math, gram: string)
    requires CharTotals(logSum, totalFreq, keys, freq, charMap, math) && gram !in keys && gram in freq
    ensures var c := CharContribution(freq[gram] as real, PosOf(charMap, gram, 0), math);
            CharTotals(logSum + c.0, totalFreq + c.1, keys + {gram}, freq, charMap, math)
  {
    forall part: CharPart
      ensures var c := CharContribution(freq[gram] as real, PosOf(charMap, gram, 0), math);
              CharGet((logSum + c.0, totalFreq + c.1), part) == Total(keys + {gram}, CharTerm(freq, charMap, math, part))
    {
      TotalInsert(keys, CharTerm(freq, charMap, math, part), gram);
    }
  }

  /** The first loop: the log-sum and the weight of the costed characters. */
  method CostCharacters(freq: map<string, nat>, charMap: CharMap, math: Math) returns (logSum: real, totalFreq: real)
    ensures (logSum, totalFreq) == CharSums(freq, charMap, math)
  {
    logSum, totalFreq := 0.0, 0.0;
    var visited: set<string> := {};
    var remaining := freq.Keys;
    while remaining != {}
      invariant visited + remaining == freq.Keys && visited !! remaining
      invariant CharTotals(logSum, totalFreq, visited, freq, charMap, math)
      decreases |remaining|
    {
      var gram := PickGram(remaining);
      logSum, totalFreq := CostCharacter(logSum, totalFreq, visited, freq, charMap, math, gram);
      visited := visited + {gram};
      remaining := remaining - {gram};
    }
    assert CharGet((logSum, totalFreq), LogPart) == CharSums(freq, charMap, math).0;
    assert CharGet((logSum, totalFreq), FreqPart) == CharSums(freq, charMap, math).1;
  }

  /** The body of the first loop, for one 1-gram. */
  method CostCharacter(logSum0: real, totalFreq0: real, ghost visited: set<string>, freq: map<string, nat>, charMap: CharMap, math: Math, gram: string)
    returns (logSum: real, totalFreq: real)
    requires CharTotals(logSum0, totalFreq0, visited, freq, charMap, math) && gram !in visited && gram in freq
    ensures CharTotals(logSum, totalFreq, visited + {gram}, freq, charMap, math)
  {
    CharTotalsInsert(logSum0, totalFreq0, visited, freq, charMap, math, gram);
    logSum, totalFreq := logSum0, totalFreq0;
    var pos := PosOf(charMap, gram, 0);
    if pos.Some? && InTable(pos.value) {
      var count := freq[gram] as real;
      logSum := logSum + CharLog(count, pos.value, math);
      totalFreq := totalFreq + count;
    }
  }

  /** The next entry of a hash map's iteration, in an order the model does not fix. */
  method PickGram(remaining: set<string>) returns (gram: string)
    requires remaining != {}
    ensures gram in remaining
  {
    gram :| gram in remaining;
  }

  /** The total weight of the costed characters is never negative. */
  lemma FreqTotalNonNegative(keys: set<string>, freq: map<string, nat>, charMap: CharMap, math: Math)
    ensures Total(keys, CharTerm(freq, charMap, math, FreqPart)) >= 0.0
  {
    TotalNonNegative(keys, CharTerm(freq, charMap, math, FreqPart));
  }

  // ---------------------------------------------------------------------------
  // The blanks
  // ---------------------------------------------------------------------------

  /** A blank of a ten-column key that is not fixed takes part in the penalty. */
  predicate PenalisedBlank(cells: seq<Symbol>, i: nat)
    requires |cells| == NUM_CELLS && i < NUM_CELLS
  {
    PosAt(i).col < COLS && cells[i] == BLANK && !FixedAt(i)
  }

  /** A blank above or below a shift key is a bonus (0.5), one beyond it toward
      the little finger is tolerated (2), any other costs 50. */
  function BlankCost(p: KeyPos): real
  {
    var isVer := (p.layer == 1 && p.col == 7 && p.row != 1) || (p.layer == 2 && p.col == 2 && p.row != 1);
    var isOut := (p.layer == 1 && p.col >= 8) || (p.layer == 2 && p.col <= 1);
    if isVer then 0.5 else if isOut then 2.0 else 50.0
  }

  /** `blank_weight * (-blank_cost.ln())` for a blank at `p`. */
  function BlankLog(blankWeight: real, p: KeyPos, math: Math): real
  {
    blankWeight * -math.ln(BlankCost(p))
  }

  /** One blank adds one per cent of the weight so far, at its cost. */
  function BlankStep(cells: seq<Symbol>, math: Math, acc: (real, real), i: nat): (real, real)
    requires |cells| == NUM_CELLS && i < NUM_CELLS
  {
    if PenalisedBlank(cells, i) then
      var blankWeight := acc.1 * 0.01;
      (acc.0 + BlankLog(blankWeight, PosAt(i), math), acc.1 + blankWeight)
    else acc
  }

  /** The second loop over the first `n` cells, in row-major order. */
  function BlankFold(cells: seq<Symbol>, math: Math, start: (real, real), n: nat): (real, real)
    requires |cells| == NUM_CELLS && n <= NUM_CELLS
  {
    if n == 0 then start else BlankStep(cells, math, BlankFold(cells, math, start, n - 1), n - 1)
  }

  /** The number of penalised blanks among the first `n` cells. */
  function BlankCount(cells: seq<Symbol>, n: nat): nat
    requires |cells| == NUM_CELLS && n <= NUM_CELLS
  {
    if n == 0 then 0 else BlankCount(cells, n - 1) + (if PenalisedBlank(cells, n - 1) then 1 else 0)
  }

  /** The second loop: every penalised blank, in row-major order. */
  method PenaliseBlanks(cells: seq<Symbol>, math: Math, logSum0: real, totalFreq0: real) returns (logSum: real, totalFreq: real)
    requires |cells| == NUM_CELLS
    ensures (logSum, totalFreq) == BlankFold(cells, math, (logSum0, totalFreq0), NUM_CELLS)
  {
    logSum, totalFreq := logSum0, totalFreq0;
    for i := 0 to NUM_CELLS
      invariant (logSum, totalFreq) == BlankFold(cells, math, (logSum0, totalFreq0), i)
    {
      logSum, totalFreq := PenaliseBlank(cells, math, logSum, totalFreq, i);
    }
  }

  /** The body of the second loop, for cell `i`. */
  method PenaliseBlank(cells: seq<Symbol>, math: Math, logSum0: real, totalFreq0: real, i: nat) returns (logSum: real, totalFreq: real)
    requires |cells| == NUM_CELLS && i < NUM_CELLS
    ensures (logSum, totalFreq) == BlankStep(cells, math, (logSum0, totalFreq0), i)
  {
    logSum, totalFreq := logSum0, totalFreq0;
    var p := PosAt(i);
    assert PenalisedBlank(cells, i) <==> p.col < COLS && cells[i] == BLANK && !FixedAt(i);
    if p.col < COLS {
      var c := cells[i];
      if c == BLANK && !FixedAt(i) {
        var blankWeight := totalFreq * 0.01;
        logSum := logSum + BlankLog(blankWeight, p, math);
        totalFreq := totalFreq + blankWeight;
      }
    }
  }

  /** A penalised blank multiplies the weight by 1.01; any other cell leaves it. */
  lemma BlankStepWeight(cells: seq<Symbol>, math: Math, acc: (real, real), i: nat)
    requires |cells| == NUM_CELLS && i < NUM_CELLS
    ensures BlankStep(cells, math, acc, i).1 == Grow(acc.1, PenalisedBlank(cells, i))
  {
  }

  /** The weight after one more cell: one per cent more for a penalised blank. */
  function Grow(weight: real, penalised: bool): real
  {
    if penalised then weight * 1.01 else weight
  }

  /** Each penalised blank multiplies the weight by 1.01, so the weight after
      the blanks is the characters' weight compounded once per blank. */
  lemma {:induction false} BlankFoldWeight(cells: seq<Symbol>, math: Math, start: (real, real), n: nat)
    requires |cells| == NUM_CELLS && n <= NUM_CELLS
    ensures BlankFold(cells, math, start, n).1 == Compound(start.1, BlankCount(cells, n))
  {
    if n > 0 {
      BlankFoldWeight(cells, math, start, n - 1);
      var prev := BlankFold(cells, math, start, n - 1);
      assert BlankFold(cells, math, start, n) == BlankStep(cells, math, prev, n - 1);
      BlankStepWeight(cells, math, prev, n - 1);
      var k, penalised := BlankCount(cells, n - 1), PenalisedBlank(cells, n - 1);
      assert BlankCount(cells, n) == k + (if penalised then 1 else 0);
      CompoundGrow(start.1, k, penalised);
    }
  }

  /** Growing a compounded weight once more compounds it once more. */
  lemma CompoundGrow(weight: real, k: nat, penalised: bool)
    ensures Grow(Compound(weight, k), penalised) == Compound(weight, k + if penalised then 1 else 0)
  {
  }

  /** `weight` grown by one per cent `k` times. */
  function Compound(weight: real, k: nat): real
  {
    if k == 0 then weight else Compound(weight, k - 1) * 1.01
  }

  /** Compounding keeps the sign: no weight stays no weight, and a positive
      weight stays positive. */
  lemma {:induction false} CompoundSign(weight: real, k: nat)
    ensures weight > 0.0 ==> Compound(weight, k) > 0.0
    ensures weight == 0.0 ==> Compound(weight, k) == 0.0
    ensures weight >= 0.0 ==> Compound(weight, k) >= weight
  {
    if k > 0 {
      CompoundSign(weight, k - 1);
    }
  }

  // ---------------------------------------------------------------------------
  // The score
  // ---------------------------------------------------------------------------

  function Min(a: real, b: real): real
  {
    if a <= b then a else b
  }

  /** `exp(log_sum / total_freq)` clamped to 1 and scaled to 100, or 0 when
      nothing was weighed. */
  function Finish(math: Math, logSum: real, totalFreq: real): real
  {
    if totalFreq == 0.0 then 0.0 else Min(math.exp(logSum / totalFreq), 1.0) * 100.0
  }

  /** The score of a layout: the characters the index places on a key of the
      table, then the blanks. */
  ghost function PositionScore(cells: seq<Symbol>, freq: map<string, nat>, charMap: CharMap, math: Math): real
    requires |cells| == NUM_CELLS
  {
    var acc := BlankFold(cells, math, CharSums(freq, charMap, math), NUM_CELLS);
    Finish(math, acc.0, acc.1)
  }

  /** `calc_position_cost`, leaving out the keys the table has no entry for. */
  method CalcPositionCost(cells: seq<Symbol>, freq: map<string, nat>, charMap: CharMap, math: Math) returns (r: real)
    requires |cells| == NUM_CELLS
    ensures r == PositionScore(cells, freq, charMap, math)
    ensures r <= 100.0
    ensures CharSums(freq, charMap, math).1 == 0.0 ==> r == 0.0
  {
    var logSum, totalFreq := CostCharacters(freq, charMap, math);
    logSum, totalFreq := PenaliseBlanks(cells, math, logSum, totalFreq);
    r := Finish(math, logSum, totalFreq);
    BlankFoldWeight(cells, math, CharSums(freq, charMap, math), NUM_CELLS);
    CompoundSign(CharSums(freq, charMap, math).1, BlankCount(cells, NUM_CELLS));
  }

  /** With a non-negative exponential the score is a percentage, and it is 0
      exactly when no character of the corpus is on a costed key (a positive
      weight stays positive through the blanks). */
  lemma PositionScoreBounds(cells: seq<Symbol>, freq: map<string, nat>, charMap: CharMap, math: Math)
    requires |cells| == NUM_CELLS
    requires forall x :: math.exp(x) > 0.0
    ensures 0.0 <= PositionScore(cells, freq, charMap, math) <= 100.0
    ensures PositionScore(cells, freq, charMap, math) == 0.0 <==> CharSums(freq, charMap, math).1 == 0.0
  {
    var start := CharSums(freq, charMap, math);
    BlankFoldWeight(cells, math, start, NUM_CELLS);
    CompoundSign(start.1, BlankCount(cells, NUM_CELLS));
    FreqTotalNonNegative(freq.Keys, freq, charMap, math);
    var acc := BlankFold(cells, math, start, NUM_CELLS);
    if start.1 > 0.0 {
      assert acc.1 > 0.0;
      assert math.exp(acc.0 / acc.1) > 0.0;
    }
  }

  // ---------------------------------------------------------------------------
  // As written
  // ---------------------------------------------------------------------------

  /** `calc_position_cost` as written: looking up `BASE_COST[row][col]` for a
      key outside the table panics, which is `None` here. */
  method CalcPositionCostAsWritten(cells: seq<Symbol>, freq: map<string, nat>, charMap: CharMap, math: Math)
    returns (r: Option<real>)
    requires |cells| == NUM_CELLS
    ensures r.None? <==> exists gram :: gram in freq && OutOfTable(charMap, gram)
    ensures r.Some? ==> r.value == PositionScore(cells, freq, charMap, math)
  {
    var logSum, totalFreq := 0.0, 0.0;
    var visited: set<string> := {};
    var remaining := freq.Keys;
    while remaining != {}
      invariant visited + remaining == freq.Keys && visited !! remaining
      invariant forall gram :: gram in visited ==> !OutOfTable(charMap, gram)
      invariant CharTotals(logSum, totalFreq, visited, freq, charMap, math)
      decreases |remaining|
    {
      var gram := PickGram(remaining);
      var pos := PosOf(charMap, gram, 0);
      if pos.Some? && !InTable(pos.value) {
        assert OutOfTable(charMap, gram);
        return None;
      }
      logSum, totalFreq := CostCharacter(logSum, totalFreq, visited, freq, charMap, math, gram);
      visited := visited + {gram};
      remaining := remaining - {gram};
    }
    assert CharGet((logSum, totalFreq), LogPart) == CharSums(freq, charMap, math).0;
    assert CharGet((logSum, totalFreq), FreqPart) == CharSums(freq, charMap, math).1;
    logSum, totalFreq := PenaliseBlanks(cells, math, logSum, totalFreq);
    r := Some(Finish(math, logSum, totalFreq));
  }

  /** The index of the seed layout puts ・ on the eleventh key of the ☆ layer's
      home row, outside the table, and every corpus counts ・ (the symbol
      characters are always added), so as written the score panics. */
  lemma SeedLayoutOutOfTable(charMap: CharMap, freq: map<string, nat>)
    requires IsCharMap(ImprovedCustom().cells, charMap)
    requires "・" in freq
    ensures exists gram :: gram in freq && OutOfTable(charMap, gram)
  {
    var cells := ImprovedCustom().cells;
    assert KeyedBy(cells[51], '・');
    assert '・' in charMap;
    var j := IndexOf(charMap['・']);
    if j < 51 {
      SeedCellsBeforeDot(j);
      assert false;
    }
    if j > 51 {
      assert false;
    }
    PosAtIndexOf(charMap['・']);
    assert PosAt(51).col == 10;
    assert OutOfTable(charMap, "・");
  }

  /** No cell of the seed layout before the ☆-layer home row's last key
      starts with ・. */
  lemma SeedCellsBeforeDot(j: nat)
    requires j < 51
    ensures !KeyedBy(ImprovedCustom().cells[j], '・')
  {
    var t := IMPROVED_CUSTOM_ROWS;
    var x := t[0] + t[1] + t[2] + t[3] + t[4];
    assert |x| == 52;
    assert ImprovedCustom().cells[j] == x[j] by { SeedPrefix(); }
    RowsWithoutDot(j);
  }

  lemma SeedPrefix()
    ensures var t := IMPROVED_CUSTOM_ROWS;
            var x := t[0] + t[1] + t[2] + t[3] + t[4];
            ImprovedCustom().cells[..|x|] == x
  {
    var t := IMPROVED_CUSTOM_ROWS;
    var x := t[0] + t[1] + t[2] + t[3] + t[4];
    var y := ImprovedCustom().cells;
    assert y == x + t[5] + t[6] + t[7] + t[8] + t[9] + t[10] + t[11];
  }

  lemma RowsWithoutDot(j: nat)
    requires j < 51
    ensures var t := IMPROVED_CUSTOM_ROWS; !KeyedBy((t[0] + t[1] + t[2] + t[3] + t[4])[j], '・')
  {
    var t := IMPROVED_CUSTOM_ROWS;
    if j < 41 {
      if j < 21 {
        if j < 10 { assert (t[0] + t[1] + t[2] + t[3] + t[4])[j] == t[0][j]; }
        else { assert (t[0] + t[1] + t[2] + t[3] + t[4])[j] == t[1][j - 10]; }
      } else if j < 31 { assert (t[0] + t[1] + t[2] + t[3] + t[4])[j] == t[2][j - 21]; }
      else { assert (t[0] + t[1] + t[2] + t[3] + t[4])[j] == t[3][j - 31]; }
    } else {
      assert (t[0] + t[1] + t[2] + t[3] + t[4])[j] == t[4][j - 41];
    }
  }
}
