/** The evaluator: the fifteen scores of a layout, assembled from the 1-, 2-
    and 3-gram counters, the three reference comparisons and the position
    cost, and the fitness that combines them (a weighted geometric mean of
    five core scores, raised by a weighted sum of the ten others). */
module Evaluation {
  import opened Common
  import opened Layouts
  import opened Totals
  import opened Corpus
  import opened References
  import opened NgramScores
  import opened Similarity
  import opened PositionCost
  import opened LayoutSearch

  // ---------------------------------------------------------------------------
  // Weights
  // ---------------------------------------------------------------------------

  /** `EvaluationWeights`: five core weights (exponents of the geometric mean)
      and ten bonus weights (coefficients of the additive bonus). */
  datatype EvaluationWeights = EvaluationWeights(
    sameFinger: real, rowSkip: real, homePosition: real, totalKeystrokes: real, alternating: real,
    singleKey: real, colemakSimilarity: real, positionCost: real, redirectLow: real,
    tsukiSimilarity: real, roll: real, inroll: real, arpeggio: real, memorability: real,
    shiftBalance: real)
  {
    function CoreWeight(): real
    {
      sameFinger + rowSkip + homePosition + totalKeystrokes + alternating
    }

    /** The ten bonus weights, in the order the bonus adds them up. */
    function BonusWeights(): seq<real>
    {
      [singleKey, colemakSimilarity, positionCost, redirectLow, tsukiSimilarity,
       roll, inroll, arpeggio, memorability, shiftBalance]
    }

    function BonusWeight(): real
    {
      singleKey + colemakSimilarity + positionCost + redirectLow + tsukiSimilarity
      + roll + inroll + arpeggio + memorability + shiftBalance
    }

    predicate Positive()
    {
      sameFinger > 0.0 && rowSkip > 0.0 && homePosition > 0.0 && totalKeystrokes > 0.0
      && alternating > 0.0 && singleKey > 0.0 && colemakSimilarity > 0.0 && positionCost > 0.0
      && redirectLow > 0.0 && tsukiSimilarity > 0.0 && roll > 0.0 && inroll > 0.0
      && arpeggio > 0.0 && memorability > 0.0 && shiftBalance > 0.0
    }
  }

  /** `EvaluationWeights::default`: core weights from 1.7 down to 1.3 in steps
      of 0.1; Colemak similarity and position cost weigh most among the
      bonus scores. */
  function DefaultWeights(): (w: EvaluationWeights)
    ensures w.Positive() && w.CoreWeight() == 7.5 && w.BonusWeight() == 48.0
    ensures w.sameFinger > w.rowSkip > w.homePosition > w.totalKeystrokes > w.alternating
    ensures w.colemakSimilarity > w.positionCost > w.roll
  {
    EvaluationWeights(1.7, 1.6, 1.5, 1.4, 1.3, 2.0, 10.0, 8.0, 5.0, 2.0, 6.0, 5.0, 5.0, 2.0, 3.0)
  }

  // ---------------------------------------------------------------------------
  // The scores
  // ---------------------------------------------------------------------------

  function Max(a: real, b: real): real
  {
    if a >= b then a else b
  }

  /** The share of the corpus's characters the layout can type. */
  function Coverage(u: UnigramCounts): real
  {
    var corpusTotal := u.totalChars + u.missing;
    if corpusTotal > 0.0 then u.totalChars / corpusTotal else 0.0
  }

  /** `100 * (1 - num / den)`, or 0 when the denominator is 0. */
  function Complement(num: real, den: real): real
  {
    if den > 0.0 then 100.0 * (1.0 - num / den) else 0.0
  }

  /** The keystroke score: 100 at an average key weight of 1, falling by 25
      per unit of extra weight and floored at 0. */
  function KeystrokeScore(u: UnigramCounts): real
  {
    if u.totalChars > 0.0 then
      var avgWeight := u.totalKeystrokes / u.totalChars;
      100.0 * Max(1.0 - (avgWeight - 1.0) / 4.0, 0.0) * Coverage(u)
    else 0.0
  }

  /** Shift balance: how evenly the ☆ and ★ layers share the shifted
      keystrokes, as `100 * min / max`, or 100 when there are none. */
  function ShiftBalance(layer1: real, layer2: real): real
  {
    var totalShifted := layer1 + layer2;
    if totalShifted > 0.0 then 100.0 * (Min(layer1, layer2) / Max(layer1, layer2)) else 100.0
  }

  /** A 2-gram score that counts against the layout: `100 * (1 - num / den)`
      scaled by the coverage, or 0 when no 2-gram was counted. */
  function ScaledComplement(num: real, den: real, coverage: real): real
  {
    if den > 0.0 then Complement(num, den) * coverage else 0.0
  }

  /** A 2-gram score that counts for the layout: `100 * num / den` scaled by
      the coverage, or 0 when no 2-gram was counted. */
  function ScaledShare(num: real, den: real, coverage: real): real
  {
    if den > 0.0 then 100.0 * num / den * coverage else 0.0
  }

  /** The four rates of `calc_trigram_scores`. */
  datatype TrigramRates = TrigramRates(roll: real, redirectLow: real, inroll: real, arpeggio: real)

  function RatesOf(t: TrigramCounts): TrigramRates
  {
    var coverage := if t.counted > 0.0 then 1.0 else 0.0;
    TrigramRates(
      if t.counted > 0.0 then 100.0 * t.roll / t.counted * coverage else 0.0,
      if t.counted > 0.0 then 100.0 * (1.0 - t.redirect / t.counted) * coverage else 0.0,
      if t.counted > 0.0 then 100.0 * t.inroll / t.counted * coverage else 0.0,
      if t.counted > 0.0 then 100.0 * t.arpeggio / t.counted * coverage else 0.0)
  }

  /** The record `compute_scores` builds from the counters and the four
      separately computed scores. */
  function ScoresOf(u: UnigramCounts, b: BigramCounts, t: TrigramCounts,
                    colemak: real, position: real, tsuki: real, memo: real): EvaluationScores
  {
    var coverage := Coverage(u);
    var corpusTotal := u.totalChars + u.missing;
    var rates := RatesOf(t);
    EvaluationScores(
      rowSkip := ScaledComplement(b.rowSkips, b.counted, coverage),
      homePosition := Percent(u.home, corpusTotal),
      totalKeystrokes := KeystrokeScore(u),
      sameFinger := ScaledComplement(b.sameFinger, b.counted, coverage),
      singleKey := Percent(u.single, corpusTotal),
      colemakSimilarity := colemak,
      positionCost := position,
      tsukiSimilarity := tsuki,
      memorability := memo,
      alternating := ScaledShare(b.alternating, b.counted, coverage),
      roll := rates.roll,
      redirectLow := rates.redirectLow,
      inroll := rates.inroll,
      arpeggio := rates.arpeggio,
      shiftBalance := ShiftBalance(u.layer1, u.layer2))
  }

  predicate InPercent(x: real)
  {
    0.0 <= x <= 100.0
  }

  /** Every score is a percentage. */
  predicate ScoresInRange(s: EvaluationScores)
  {
    InPercent(s.rowSkip) && InPercent(s.homePosition) && InPercent(s.totalKeystrokes)
    && InPercent(s.sameFinger) && InPercent(s.singleKey) && InPercent(s.colemakSimilarity)
    && InPercent(s.positionCost) && InPercent(s.tsukiSimilarity) && InPercent(s.memorability)
    && InPercent(s.alternating) && InPercent(s.roll) && InPercent(s.redirectLow)
    && InPercent(s.inroll) && InPercent(s.arpeggio) && InPercent(s.shiftBalance)
  }

  lemma FractionBounds(num: real, den: real)
    requires 0.0 <= num <= den && den > 0.0
    ensures 0.0 <= num / den <= 1.0
  {
    var q := num / den;
    assert num == q * den;
  }

  lemma ScaleBounds(x: real, c: real)
    requires InPercent(x) && 0.0 <= c <= 1.0
    ensures InPercent(x * c) && x * c <= x
  {
    assert x * c <= x * 1.0;
  }

  lemma ComplementBounds(num: real, den: real)
    requires 0.0 <= num <= den
    ensures InPercent(Complement(num, den))
  {
    if den > 0.0 {
      FractionBounds(num, den);
    }
  }

  lemma CoverageBounds(u: UnigramCounts)
    requires UnigramSane(u)
    ensures 0.0 <= Coverage(u) <= 1.0
  {
    if u.totalChars + u.missing > 0.0 {
      FractionBounds(u.totalChars, u.totalChars + u.missing);
    }
  }

  lemma KeystrokeBounds(u: UnigramCounts)
    requires UnigramSane(u)
    ensures InPercent(KeystrokeScore(u))
  {
    CoverageBounds(u);
    if u.totalChars > 0.0 {
      var avgWeight := u.totalKeystrokes / u.totalChars;
      AverageAtLeastOne(u.totalKeystrokes, u.totalChars);
      ScaleBounds(100.0 * Max(1.0 - (avgWeight - 1.0) / 4.0, 0.0), Coverage(u));
    }
  }

  lemma AverageAtLeastOne(total: real, count: real)
    requires 0.0 < count <= total
    ensures total / count >= 1.0
  {
    var q := total / count;
    assert total == q * count;
  }

  /** `shift_balance` does not care which shift layer is which, is 100
      when nothing is shifted, and for counts is a percentage that is 100
      exactly when the two layers are used equally. */
  lemma ShiftBalanceFacts(layer1: real, layer2: real)
    ensures ShiftBalance(layer1, layer2) == ShiftBalance(layer2, layer1)
    ensures layer1 + layer2 <= 0.0 ==> ShiftBalance(layer1, layer2) == 100.0
    ensures layer1 >= 0.0 && layer2 >= 0.0 ==>
              InPercent(ShiftBalance(layer1, layer2))
              && (ShiftBalance(layer1, layer2) == 100.0 <==> layer1 == layer2)
  {
    if layer1 >= 0.0 && layer2 >= 0.0 && layer1 + layer2 > 0.0 {
      var lo, hi := Min(layer1, layer2), Max(layer1, layer2);
      FractionBounds(lo, hi);
      if lo / hi == 1.0 {
        assert lo == (lo / hi) * hi;
      }
    }
  }

  lemma RatesBounds(t: TrigramCounts)
    requires TrigramSane(t)
    ensures var r := RatesOf(t);
            InPercent(r.roll) && InPercent(r.redirectLow) && InPercent(r.inroll) && InPercent(r.arpeggio)
  {
    if t.counted > 0.0 {
      PercentBounds(t.roll, t.counted);
      PercentBounds(t.inroll, t.counted);
      PercentBounds(t.arpeggio, t.counted);
      ComplementBounds(t.redirect, t.counted);
      assert Percent(t.roll, t.counted) == 100.0 * t.roll / t.counted;
      assert Percent(t.inroll, t.counted) == 100.0 * t.inroll / t.counted;
      assert Percent(t.arpeggio, t.counted) == 100.0 * t.arpeggio / t.counted;
      assert Complement(t.redirect, t.counted) == 100.0 * (1.0 - t.redirect / t.counted);
    }
  }

  /** From counters that relate as the loops make them relate, and from
      reference scores that are percentages, every score is a percentage. */
  lemma ScoresOfInRange(u: UnigramCounts, b: BigramCounts, t: TrigramCounts,
                        colemak: real, position: real, tsuki: real, memo: real)
    requires UnigramSane(u) && BigramSane(b) && TrigramSane(t)
    requires InPercent(colemak) && InPercent(position) && InPercent(tsuki) && InPercent(memo)
    ensures ScoresInRange(ScoresOf(u, b, t, colemak, position, tsuki, memo))
  {
    CoverageBounds(u);
    KeystrokeBounds(u);
    ShiftBalanceFacts(u.layer1, u.layer2);
    RatesBounds(t);
    PercentBounds(u.home, u.totalChars + u.missing);
    PercentBounds(u.single, u.totalChars + u.missing);
    ScaledComplementBounds(b.rowSkips, b.counted, Coverage(u));
    ScaledComplementBounds(b.sameFinger, b.counted, Coverage(u));
    ScaledShareBounds(b.alternating, b.counted, Coverage(u));
  }

  /** A 2-gram complement score scaled by the coverage is a percentage. */
  lemma ScaledComplementBounds(num: real, den: real, coverage: real)
    requires 0.0 <= num <= den && 0.0 <= coverage <= 1.0
    ensures InPercent(ScaledComplement(num, den, coverage))
  {
    ComplementBounds(num, den);
    ScaleBounds(Complement(num, den), coverage);
  }

  /** A 2-gram share scaled by the coverage is a percentage. */
  lemma ScaledShareBounds(num: real, den: real, coverage: real)
    requires 0.0 <= num <= den && 0.0 <= coverage <= 1.0
    ensures InPercent(ScaledShare(num, den, coverage))
  {
    PercentBounds(num, den);
    ScaleBounds(Percent(num, den), coverage);
  }

  /** The zero-denominator guards: no counted 2-gram gives 0 for the three
      2-gram scores, an empty corpus gives 0 for the home, single-key and
      keystroke scores, and no counted 3-gram gives 0 for the four rates. */
  lemma ScoresOfZeroGuards(u: UnigramCounts, b: BigramCounts, t: TrigramCounts,
                           colemak: real, position: real, tsuki: real, memo: real)
    ensures var s := ScoresOf(u, b, t, colemak, position, tsuki, memo);
            (b.counted <= 0.0 ==> s.rowSkip == 0.0 && s.sameFinger == 0.0 && s.alternating == 0.0)
            && (u.totalChars + u.missing <= 0.0 ==>
                  s.homePosition == 0.0 && s.singleKey == 0.0 && s.totalKeystrokes == 0.0)
            && (t.counted <= 0.0 ==> s.roll == 0.0 && s.redirectLow == 0.0 && s.inroll == 0.0 && s.arpeggio == 0.0)
  {
  }

  // ---------------------------------------------------------------------------
  // The fitness
  // ---------------------------------------------------------------------------

  /** A core score as a fraction, floored at 0.01 so that no factor is 0. */
  function CoreNorm(score: real): real
  {
    Max(score / 100.0, 0.01)
  }

  /** The product of the five normalised core scores, each raised to its
      weight. */
  function CoreProduct(w: EvaluationWeights, s: EvaluationScores, math: Math): real
  {
    math.powf(CoreNorm(s.sameFinger), w.sameFinger)
    * math.powf(CoreNorm(s.rowSkip), w.rowSkip)
    * math.powf(CoreNorm(s.homePosition), w.homePosition)
    * math.powf(CoreNorm(s.totalKeystrokes), w.totalKeystrokes)
    * math.powf(CoreNorm(s.alternating), w.alternating)
  }

  /** `core_multiplier`: the weighted geometric mean of the five normalised
      core scores, scaled to 100. */
  function CoreMultiplier(w: EvaluationWeights, s: EvaluationScores, math: Math): real
    requires w.CoreWeight() != 0.0
  {
    math.powf(CoreProduct(w, s, math), 1.0 / w.CoreWeight()) * 100.0
  }

  /** The ten bonus scores, in the order the bonus adds them up. */
  function BonusScores(s: EvaluationScores): seq<real>
  {
    [s.singleKey, s.colemakSimilarity, s.positionCost, s.redirectLow, s.tsukiSimilarity,
     s.roll, s.inroll, s.arpeggio, s.memorability, s.shiftBalance]
  }

  function Sum(xs: seq<real>): real
  {
    if |xs| == 0 then 0.0 else Sum(xs[..|xs| - 1]) + xs[|xs| - 1]
  }

  /** `x0 * y0 + x1 * y1 + ...`, added from the left. */
  function Dot(xs: seq<real>, ys: seq<real>): real
    requires |xs| == |ys|
  {
    if |xs| == 0 then 0.0 else Dot(xs[..|xs| - 1], ys[..|ys| - 1]) + xs[|xs| - 1] * ys[|ys| - 1]
  }

  /** `additive_bonus`: each bonus score times its weight. */
  function AdditiveBonus(w: EvaluationWeights, s: EvaluationScores): real
  {
    Dot(BonusScores(s), w.BonusWeights())
  }

  function BonusScale(w: EvaluationWeights): real
  {
    w.BonusWeight() * 100.0
  }

  /** `compute_fitness`: core × (1 + bonus / scale). */
  function ComputeFitness(w: EvaluationWeights, s: EvaluationScores, math: Math): real
    requires w.CoreWeight() != 0.0 && w.BonusWeight() != 0.0
  {
    CoreMultiplier(w, s, math) * (1.0 + AdditiveBonus(w, s) / BonusScale(w))
  }

  /** The ten bonus scores are percentages. */
  predicate BonusInRange(s: EvaluationScores)
  {
    forall i :: 0 <= i < |BonusScores(s)| ==> InPercent(BonusScores(s)[i])
  }

  /** Percentages weighed by positive weights add up to between 0 and 100
      times the weights' sum. */
  lemma {:induction false} DotBounds(xs: seq<real>, ys: seq<real>)
    requires |xs| == |ys|
    requires forall i :: 0 <= i < |xs| ==> InPercent(xs[i]) && ys[i] > 0.0
    ensures 0.0 <= Dot(xs, ys) <= 100.0 * Sum(ys)
  {
    if |xs| > 0 {
      var n := |xs| - 1;
      DotBounds(xs[..n], ys[..n]);
      WeightedTerm(xs[n], ys[n]);
      DotStep(Dot(xs[..n], ys[..n]), Sum(ys[..n]), xs[n], ys[n]);
    }
  }

  lemma WeightedTerm(x: real, weight: real)
    requires InPercent(x) && weight > 0.0
    ensures 0.0 <= x * weight <= 100.0 * weight
  {
  }

  lemma DotStep(rest: real, restSum: real, x: real, y: real)
    requires 0.0 <= rest <= 100.0 * restSum && 0.0 <= x * y <= 100.0 * y
    ensures 0.0 <= rest + x * y <= 100.0 * (restSum + y)
  {
  }

  /** Under positive weights, pointwise larger scores give a larger sum. */
  lemma {:induction false} DotMonotone(xs1: seq<real>, xs2: seq<real>, ys: seq<real>)
    requires |xs1| == |xs2| == |ys|
    requires forall i :: 0 <= i < |ys| ==> xs1[i] <= xs2[i] && ys[i] > 0.0
    ensures Dot(xs1, ys) <= Dot(xs2, ys)
  {
    if |ys| > 0 {
      var n := |ys| - 1;
      DotMonotone(xs1[..n], xs2[..n], ys[..n]);
      WeightedLe(xs1[n], xs2[n], ys[n]);
    }
  }

  lemma WeightedLe(x1: real, x2: real, weight: real)
    requires x1 <= x2 && weight > 0.0
    ensures x1 * weight <= x2 * weight
  {
  }

  /** With positive weights and bonus scores that are percentages, the
      additive bonus lies between 0 and its scale. */
  lemma BonusBounds(w: EvaluationWeights, s: EvaluationScores)
    requires w.Positive() && BonusInRange(s)
    ensures 0.0 <= AdditiveBonus(w, s) <= BonusScale(w)
    ensures BonusScale(w) > 0.0
  {
    DotBounds(BonusScores(s), w.BonusWeights());
    BonusWeightSum(w);
  }

  lemma SumPrefixStep(ys: seq<real>, k: nat)
    requires 0 < k <= |ys|
    ensures Sum(ys[..k]) == Sum(ys[..k - 1]) + ys[k - 1]
  {
    assert ys[..k][..k - 1] == ys[..k - 1];
  }

  /** The bonus weight is the sum of the ten bonus weights. */
  lemma BonusWeightSum(w: EvaluationWeights)
    ensures w.BonusWeight() == Sum(w.BonusWeights())
  {
    var ys := w.BonusWeights();
    SumPrefixStep(ys, 1);
    SumPrefixStep(ys, 2);
    SumPrefixStep(ys, 3);
    SumPrefixStep(ys, 4);
    SumPrefixStep(ys, 5);
    SumPrefixStep(ys, 6);
    SumPrefixStep(ys, 7);
    SumPrefixStep(ys, 8);
    SumPrefixStep(ys, 9);
    SumPrefixStep(ys, 10);
    assert ys[..10] == ys;
  }

  /** The bonus can at most double the core: the fitness lies between the
      core multiplier and twice it. */
  lemma FitnessBounds(w: EvaluationWeights, s: EvaluationScores, math: Math)
    requires w.Positive() && BonusInRange(s)
    requires CoreMultiplier(w, s, math) >= 0.0
    ensures CoreMultiplier(w, s, math) <= ComputeFitness(w, s, math) <= 2.0 * CoreMultiplier(w, s, math)
  {
    BonusBounds(w, s);
    FractionBounds(AdditiveBonus(w, s), BonusScale(w));
    GrowBounds(CoreMultiplier(w, s, math), AdditiveBonus(w, s) / BonusScale(w));
  }

  lemma GrowBounds(core: real, q: real)
    requires core >= 0.0 && 0.0 <= q <= 1.0
    ensures core <= core * (1.0 + q) <= 2.0 * core
  {
    assert core * (1.0 + q) == core + core * q;
    assert core * q <= core * 1.0;
  }

  /** The core multiplier reads only the five core scores. */
  lemma CoreOnlyCore(w: EvaluationWeights, s1: EvaluationScores, s2: EvaluationScores, math: Math)
    requires w.CoreWeight() != 0.0
    requires s1.sameFinger == s2.sameFinger && s1.rowSkip == s2.rowSkip && s1.homePosition == s2.homePosition
    requires s1.totalKeystrokes == s2.totalKeystrokes && s1.alternating == s2.alternating
    ensures CoreMultiplier(w, s1, math) == CoreMultiplier(w, s2, math)
  {
    assert CoreProduct(w, s1, math) == CoreProduct(w, s2, math);
  }

  /** Raising bonus scores never lowers the fitness when the core scores stay
      the same. */
  lemma FitnessMonotone(w: EvaluationWeights, s1: EvaluationScores, s2: EvaluationScores, math: Math)
    requires w.Positive()
    requires s1.sameFinger == s2.sameFinger && s1.rowSkip == s2.rowSkip && s1.homePosition == s2.homePosition
    requires s1.totalKeystrokes == s2.totalKeystrokes && s1.alternating == s2.alternating
    requires forall i :: 0 <= i < |BonusScores(s1)| ==> BonusScores(s1)[i] <= BonusScores(s2)[i]
    requires CoreMultiplier(w, s1, math) >= 0.0
    ensures ComputeFitness(w, s1, math) <= ComputeFitness(w, s2, math)
  {
    CoreOnlyCore(w, s1, s2, math);
    var core := CoreMultiplier(w, s1, math);
    DotMonotone(BonusScores(s1), BonusScores(s2), w.BonusWeights());
    var q1, q2 := AdditiveBonus(w, s1) / BonusScale(w), AdditiveBonus(w, s2) / BonusScale(w);
    DivideMonotone(AdditiveBonus(w, s1), AdditiveBonus(w, s2), BonusScale(w));
    assert core * (1.0 + q1) <= core * (1.0 + q2);
  }

  lemma DivideMonotone(a: real, b: real, d: real)
    requires a <= b && d > 0.0
    ensures a / d <= b / d
  {
    assert b / d - a / d == (b - a) / d;
  }

  /** What `powf` is taken to satisfy: a positive base gives a positive
      power, and a base in (0, 1] with a non-negative exponent stays in (0, 1]. */
  ghost predicate PowfSane(math: Math)
  {
    forall x, y :: x > 0.0 ==> math.powf(x, y) > 0.0 && (x <= 1.0 && y >= 0.0 ==> math.powf(x, y) <= 1.0)
  }

  lemma UnitProduct(a: real, b: real)
    requires 0.0 < a <= 1.0 && 0.0 < b <= 1.0
    ensures 0.0 < a * b <= 1.0
  {
    assert a * b <= 1.0 * b;
  }

  lemma CoreNormBounds(score: real)
    requires score <= 100.0
    ensures 0.01 <= CoreNorm(score) <= 1.0
  {
  }

  /** With five core scores at most 100, positive weights and a `powf` that
      behaves as above, the core multiplier lies in (0, 100]. */
  lemma CoreMultiplierBounds(w: EvaluationWeights, s: EvaluationScores, math: Math)
    requires w.Positive() && PowfSane(math)
    requires s.sameFinger <= 100.0 && s.rowSkip <= 100.0 && s.homePosition <= 100.0
    requires s.totalKeystrokes <= 100.0 && s.alternating <= 100.0
    ensures 0.0 < CoreMultiplier(w, s, math) <= 100.0
  {
    CoreNormBounds(s.sameFinger);
    CoreNormBounds(s.rowSkip);
    CoreNormBounds(s.homePosition);
    CoreNormBounds(s.totalKeystrokes);
    CoreNormBounds(s.alternating);
    var p1 := math.powf(CoreNorm(s.sameFinger), w.sameFinger);
    var p2 := math.powf(CoreNorm(s.rowSkip), w.rowSkip);
    var p3 := math.powf(CoreNorm(s.homePosition), w.homePosition);
    var p4 := math.powf(CoreNorm(s.totalKeystrokes), w.totalKeystrokes);
    var p5 := math.powf(CoreNorm(s.alternating), w.alternating);
    UnitProduct(p1, p2);
    UnitProduct(p1 * p2, p3);
    UnitProduct(p1 * p2 * p3, p4);
    UnitProduct(p1 * p2 * p3 * p4, p5);
    var product := p1 * p2 * p3 * p4 * p5;
    assert CoreProduct(w, s, math) == product;
    assert 1.0 / w.CoreWeight() > 0.0;
    assert 0.0 < math.powf(product, 1.0 / w.CoreWeight()) <= 1.0;
  }

  // ---------------------------------------------------------------------------
  // The evaluator
  // ---------------------------------------------------------------------------

  /** `Evaluator`: the corpus, the Tsuki reference and the weights. */
  datatype Evaluator = Evaluator(corpus: CorpusStats, tsuki: map<char, KeyPos>, weights: EvaluationWeights)

  /** The weights the evaluator can divide by: both weight sums non-zero. */
  predicate UsableWeights(w: EvaluationWeights)
  {
    w.CoreWeight() != 0.0 && w.BonusWeight() != 0.0
  }

  /** `Evaluator::with_weights`. */
  method WithWeights(corpus: CorpusStats, weights: EvaluationWeights) returns (ev: Evaluator)
    ensures ev.corpus == corpus && ev.weights == weights
    ensures forall c :: c in ev.tsuki <==> c in TSUKI_BACK || (c in TSUKI_FRONT && !TsukiFrontSkipped(c))
  {
    var tsuki := NewTsukiLayout();
    ev := Evaluator(corpus, tsuki, weights);
  }

  /** `Evaluator::new`: the default weights. */
  method NewEvaluator(corpus: CorpusStats) returns (ev: Evaluator)
    ensures ev.corpus == corpus && ev.weights == DefaultWeights() && UsableWeights(ev.weights)
    ensures forall c :: c in ev.tsuki <==> c in TSUKI_BACK || (c in TSUKI_FRONT && !TsukiFrontSkipped(c))
  {
    ev := WithWeights(corpus, DefaultWeights());
  }

  /** The 1-gram counters as totals over the corpus. */
  ghost function UnigramSums(freq: map<string, nat>, charMap: CharMap): UnigramCounts
  {
    UnigramCounts(
      Total(freq.Keys, UnigramTerm(freq, charMap, TotalKeystrokes)),
      Total(freq.Keys, UnigramTerm(freq, charMap, Home)),
      Total(freq.Keys, UnigramTerm(freq, charMap, Shifted)),
      Total(freq.Keys, UnigramTerm(freq, charMap, Single)),
      Total(freq.Keys, UnigramTerm(freq, charMap, Layer1)),
      Total(freq.Keys, UnigramTerm(freq, charMap, Layer2)),
      Total(freq.Keys, UnigramTerm(freq, charMap, TotalChars)),
      Total(freq.Keys, UnigramTerm(freq, charMap, Missing)))
  }

  lemma UnigramSumsUnique(u: UnigramCounts, freq: map<string, nat>, charMap: CharMap)
    requires UnigramTotals(u, freq.Keys, freq, charMap)
    ensures u == UnigramSums(freq, charMap)
  {
    assert UnigramGet(u, TotalKeystrokes) == u.totalKeystrokes && UnigramGet(u, Home) == u.home;
    assert UnigramGet(u, Shifted) == u.shifted && UnigramGet(u, Single) == u.single;
    assert UnigramGet(u, Layer1) == u.layer1 && UnigramGet(u, Layer2) == u.layer2;
    assert UnigramGet(u, TotalChars) == u.totalChars && UnigramGet(u, Missing) == u.missing;
  }

  ghost function BigramSums(freq: map<string, nat>, charMap: CharMap): BigramCounts
  {
    BigramCounts(
      Total(freq.Keys, BigramTerm(freq, charMap, Counted)),
      Total(freq.Keys, BigramTerm(freq, charMap, SameFingers)),
      Total(freq.Keys, BigramTerm(freq, charMap, RowSkips)),
      Total(freq.Keys, BigramTerm(freq, charMap, Alternations)))
  }

  lemma BigramSumsUnique(b: BigramCounts, freq: map<string, nat>, charMap: CharMap)
    requires BigramTotals(b, freq.Keys, freq, charMap)
    ensures b == BigramSums(freq, charMap)
  {
    assert BigramGet(b, Counted) == b.counted && BigramGet(b, SameFingers) == b.sameFinger;
    assert BigramGet(b, RowSkips) == b.rowSkips && BigramGet(b, Alternations) == b.alternating;
  }

  ghost function TrigramSums(freq: map<string, nat>, charMap: CharMap): TrigramCounts
  {
    TrigramCounts(
      Total(freq.Keys, TrigramTerm(freq, charMap, TriCounted)),
      Total(freq.Keys, TrigramTerm(freq, charMap, Rolls)),
      Total(freq.Keys, TrigramTerm(freq, charMap, Redirects)),
      Total(freq.Keys, TrigramTerm(freq, charMap, Inrolls)),
      Total(freq.Keys, TrigramTerm(freq, charMap, Arpeggios)))
  }

  lemma TrigramSumsUnique(t: TrigramCounts, freq: map<string, nat>, charMap: CharMap)
    requires TrigramTotals(t, freq.Keys, freq, charMap)
    ensures t == TrigramSums(freq, charMap)
  {
    assert TrigramGet(t, TriCounted) == t.counted && TrigramGet(t, Rolls) == t.roll;
    assert TrigramGet(t, Redirects) == t.redirect && TrigramGet(t, Inrolls) == t.inroll;
    assert TrigramGet(t, Arpeggios) == t.arpeggio;
  }

  /** The scores of the layout `cells` once its character index is `charMap`. */
  ghost function LayoutScores(ev: Evaluator, cells: seq<Symbol>, math: Math, charMap: CharMap): EvaluationScores
    requires WellShaped(cells)
  {
    ScoresOf(
      UnigramSums(ev.corpus.charFreq, charMap),
      BigramSums(ev.corpus.bigramFreq, charMap),
      TrigramSums(ev.corpus.trigramFreq, charMap),
      Percent(SumBelow(NUM_CELLS, ColemakScores(cells, ColemakTable())), SumBelow(NUM_CELLS, ColemakMaxima(cells))),
      PositionScore(cells, ev.corpus.charFreq, charMap, math),
      Percent(CountBelow(NUM_CELLS, TsukiMatchCounts(cells, ev.tsuki)) as real,
              CountBelow(NUM_CELLS, TsukiTotals(cells, ev.tsuki)) as real),
      Percent(CountBelow(KEYS_PER_LAYER, MemoConsistentCounts(cells)) as real,
              CountBelow(KEYS_PER_LAYER, MemoTotals(cells)) as real))
  }

  /** `s` is what `compute_scores` gives for `cells`: the scores under the
      layout's character index. */
  ghost predicate IsLayoutScores(ev: Evaluator, cells: seq<Symbol>, math: Math, s: EvaluationScores)
    requires WellShaped(cells)
  {
    exists charMap :: IsCharMap(cells, charMap) && s == LayoutScores(ev, cells, math, charMap)
  }

  /** The scores of a layout do not depend on anything but the layout (and
      the evaluator): the index they are computed under is unique. */
  lemma LayoutScoresUnique(ev: Evaluator, cells: seq<Symbol>, math: Math, s1: EvaluationScores, s2: EvaluationScores)
    requires WellShaped(cells) && IsLayoutScores(ev, cells, math, s1) && IsLayoutScores(ev, cells, math, s2)
    ensures s1 == s2
  {
    var m1 :| IsCharMap(cells, m1) && s1 == LayoutScores(ev, cells, math, m1);
    var m2 :| IsCharMap(cells, m2) && s2 == LayoutScores(ev, cells, math, m2);
    CharMapUnique(cells, m1, m2);
  }

  /** With an exponential that is positive, every score of a layout is a
      percentage. */
  lemma LayoutScoresInRange(ev: Evaluator, cells: seq<Symbol>, math: Math, charMap: CharMap)
    requires WellShaped(cells)
    requires forall x :: math.exp(x) > 0.0
    ensures ScoresInRange(LayoutScores(ev, cells, math, charMap))
  {
    var freq := ev.corpus;
    var u := UnigramSums(freq.charFreq, charMap);
    var b := BigramSums(freq.bigramFreq, charMap);
    var t := TrigramSums(freq.trigramFreq, charMap);
    var colemak := Percent(SumBelow(NUM_CELLS, ColemakScores(cells, ColemakTable())), SumBelow(NUM_CELLS, ColemakMaxima(cells)));
    var position := PositionScore(cells, freq.charFreq, charMap, math);
    var tsuki := Percent(CountBelow(NUM_CELLS, TsukiMatchCounts(cells, ev.tsuki)) as real,
                         CountBelow(NUM_CELLS, TsukiTotals(cells, ev.tsuki)) as real);
    var memo := Percent(CountBelow(KEYS_PER_LAYER, MemoConsistentCounts(cells)) as real,
                        CountBelow(KEYS_PER_LAYER, MemoTotals(cells)) as real);
    assert LayoutScores(ev, cells, math, charMap) == ScoresOf(u, b, t, colemak, position, tsuki, memo);
    UnigramSumsTotals(freq.charFreq, charMap);
    BigramSumsTotals(freq.bigramFreq, charMap);
    TrigramSumsTotals(freq.trigramFreq, charMap);
    UnigramTotalsSane(u, freq.charFreq.Keys, freq.charFreq, charMap);
    BigramTotalsSane(b, freq.bigramFreq.Keys, freq.bigramFreq, charMap);
    TrigramTotalsSane(t, freq.trigramFreq.Keys, freq.trigramFreq, charMap);
    ColemakBounds(cells, ColemakTable());
    PositionScoreBounds(cells, freq.charFreq, charMap, math);
    TsukiBounds(cells, ev.tsuki);
    MemoBounds(cells);
    ScoresOfInRange(u, b, t, colemak, position, tsuki, memo);
  }

  lemma UnigramSumsTotals(freq: map<string, nat>, charMap: CharMap)
    ensures UnigramTotals(UnigramSums(freq, charMap), freq.Keys, freq, charMap)
  {
    forall field: UnigramField
      ensures UnigramGet(UnigramSums(freq, charMap), field) == Total(freq.Keys, UnigramTerm(freq, charMap, field))
    {
    }
  }

  lemma BigramSumsTotals(freq: map<string, nat>, charMap: CharMap)
    ensures BigramTotals(BigramSums(freq, charMap), freq.Keys, freq, charMap)
  {
    forall field: BigramField
      ensures BigramGet(BigramSums(freq, charMap), field) == Total(freq.Keys, BigramTerm(freq, charMap, field))
    {
    }
  }

  lemma TrigramSumsTotals(freq: map<string, nat>, charMap: CharMap)
    ensures TrigramTotals(TrigramSums(freq, charMap), freq.Keys, freq, charMap)
  {
    forall field: TrigramField
      ensures TrigramGet(TrigramSums(freq, charMap), field) == Total(freq.Keys, TrigramTerm(freq, charMap, field))
    {
    }
  }

  /** `Evaluator::compute_scores`. */
  method ComputeScores(ev: Evaluator, layout: Layout, math: Math) returns (s: EvaluationScores)
    requires WellShaped(layout.cells)
    ensures IsLayoutScores(ev, layout.cells, math, s)
  {
    var cells := layout.cells;
    var charMap := BuildCharMap(layout);
    var u := CountUnigrams(ev.corpus.charFreq, charMap);
    var b := CountBigrams(ev.corpus.bigramFreq, charMap);
    var t := CountTrigrams(ev.corpus.trigramFreq, charMap);
    var colemak := CalcColemakSimilarity(cells);
    var position := CalcPositionCost(cells, ev.corpus.charFreq, charMap, math);
    var tsuki := CalcTsukiSimilarity(cells, ev.tsuki);
    var memo := CalcMemorability(cells);
    s := ScoresOf(u, b, t, colemak, position, tsuki, memo);
    UnigramSumsUnique(u, ev.corpus.charFreq, charMap);
    BigramSumsUnique(b, ev.corpus.bigramFreq, charMap);
    TrigramSumsUnique(t, ev.corpus.trigramFreq, charMap);
    assert s == LayoutScores(ev, cells, math, charMap);
  }

  /** `Evaluator::evaluate`: the layout keeps its cells and stores exactly the
      scores and the fitness computed for it. */
  method Evaluate(ev: Evaluator, layout: Layout, math: Math) returns (fitness: real, evaluated: Layout)
    requires WellShaped(layout.cells) && UsableWeights(ev.weights)
    ensures evaluated.cells == layout.cells && evaluated.fitness == fitness
    ensures IsLayoutScores(ev, layout.cells, math, evaluated.scores)
    ensures fitness == ComputeFitness(ev.weights, evaluated.scores, math)
  {
    var scores := ComputeScores(ev, layout, math);
    fitness := ComputeFitness(ev.weights, scores, math);
    evaluated := layout.(scores := scores, fitness := fitness);
  }

  /** With positive weights, a positive exponential and a `powf` that behaves
      as described, every layout's fitness lies in (0, 200]: the core
      multiplier is in (0, 100] and the bonus at most doubles it. */
  lemma LayoutFitnessBounds(ev: Evaluator, cells: seq<Symbol>, math: Math, s: EvaluationScores)
    requires WellShaped(cells) && IsLayoutScores(ev, cells, math, s)
    requires ev.weights.Positive() && PowfSane(math) && forall x :: math.exp(x) > 0.0
    ensures 0.0 < CoreMultiplier(ev.weights, s, math) <= ComputeFitness(ev.weights, s, math) <= 200.0
  {
    var charMap :| IsCharMap(cells, charMap) && s == LayoutScores(ev, cells, math, charMap);
    LayoutScoresInRange(ev, cells, math, charMap);
    InRangeFitnessBounds(ev.weights, s, math);
  }

  /** Scores that are all percentages have a fitness in (0, 200]. */
  lemma InRangeFitnessBounds(w: EvaluationWeights, s: EvaluationScores, math: Math)
    requires ScoresInRange(s) && w.Positive() && PowfSane(math)
    ensures 0.0 < CoreMultiplier(w, s, math) <= ComputeFitness(w, s, math) <= 200.0
  {
    CoreMultiplierBounds(w, s, math);
    assert BonusInRange(s);
    FitnessBounds(w, s, math);
  }
}
