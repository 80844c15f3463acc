/** The genetic algorithm that searches for a layout: a population seeded with
    the hand-made layout and random layouts, then generation after generation of
    elitism, tournament selection, uniform crossover, swap mutation and repair,
    each child scored by the evaluator. All randomness comes from the seeded
    generator. */
module Genetic {
  import opened Common
  import opened Layouts
  import opened Random
  import opened Corpus
  import opened PositionCost
  import opened Evaluation
  import opened GaOperators

  /** `GaConfig`. */
  datatype GaConfig = GaConfig(
    populationSize: nat,
    generations: nat,
    mutationRate: real,
    eliteCount: nat,
    seed: nat)

  /** `GaConfig::default`. */
  function DefaultConfig(): GaConfig
  {
    GaConfig(500, 1000, 0.15, 10, 42)
  }

  /** `GaResult`. */
  datatype GaResult = GaResult(
    bestLayout: Layout,
    bestFitness: real,
    fitnessHistory: seq<real>,
    finalGeneration: nat)

  /** The symbols the optimiser places: the corpus's kana, most frequent first,
      or the fallback list when the corpus has none. */
  function KanaList(corpus: CorpusStats): (r: seq<Symbol>)
    ensures |corpus.hiraganaByFreq| == 0 ==> r == HIRAGANA_FREQ_DEFAULT
    ensures |corpus.hiraganaByFreq| > 0 ==>
              |r| == |corpus.hiraganaByFreq| && forall i :: 0 <= i < |r| ==> r[i] == [corpus.hiraganaByFreq[i]]
  {
    if |corpus.hiraganaByFreq| == 0 then HIRAGANA_FREQ_DEFAULT
    else seq(|corpus.hiraganaByFreq|, i requires 0 <= i < |corpus.hiraganaByFreq| => [corpus.hiraganaByFreq[i]])
  }

  /** A corpus kana list without repeats gives a symbol list without repeats,
      which is what the repair needs to leave no duplicate behind. */
  lemma KanaListNoRepeats(corpus: CorpusStats)
    requires |corpus.hiraganaByFreq| > 0 && NoRepeats(corpus.hiraganaByFreq)
    ensures NoRepeats(KanaList(corpus))
  {
    var r := KanaList(corpus);
    forall i, j | 0 <= i < j < |r| ensures r[i] != r[j] {
      assert r[i][0] == corpus.hiraganaByFreq[i] && r[j][0] == corpus.hiraganaByFreq[j];
    }
  }

  /** No later entry is smaller than an earlier one. */
  predicate NonDecreasing(xs: seq<real>)
  {
    forall i, j :: 0 <= i < j < |xs| ==> xs[i] <= xs[j]
  }

  lemma NonDecreasingAppend(xs: seq<real>, x: real)
    requires NonDecreasing(xs) && (|xs| > 0 ==> xs[|xs| - 1] <= x)
    ensures NonDecreasing(xs + [x])
  {
  }

  /** Every member of generation g is at most as fit as `history[g]`. */
  predicate Dominated(populations: seq<seq<Layout>>, history: seq<real>)
  {
    |populations| == |history|
    && forall g, k :: 0 <= g < |populations| && 0 <= k < |populations[g]| ==> populations[g][k].fitness <= history[g]
  }

  lemma DominatedAppend(populations: seq<seq<Layout>>, history: seq<real>, population: seq<Layout>, best: real)
    requires Dominated(populations, history)
    requires forall k :: 0 <= k < |population| ==> population[k].fitness <= best
    ensures Dominated(populations + [population], history + [best])
  {
  }

  /** The population size after the first generation: the elites kept, topped
      up with children to the configured size. */
  function NextSize(config: GaConfig, n: nat): nat
  {
    var elites := if config.eliteCount < n then config.eliteCount else n;
    if elites < config.populationSize then config.populationSize else elites
  }

  /** The scores the evaluator gives a grid, when it gives any. */
  ghost function ChosenScores(ev: Evaluator, cells: seq<Symbol>, math: Math): EvaluationScores
  {
    if WellShaped(cells) && exists s :: IsLayoutScores(ev, cells, math, s) then
      var s :| IsLayoutScores(ev, cells, math, s); s
    else DefaultScores()
  }

  /** Scores the evaluator gives are the chosen ones. */
  lemma ChosenScoresAre(ev: Evaluator, cells: seq<Symbol>, math: Math, s: EvaluationScores)
    requires WellShaped(cells) && IsLayoutScores(ev, cells, math, s)
    ensures ChosenScores(ev, cells, math) == s
  {
    LayoutScoresUnique(ev, cells, math, ChosenScores(ev, cells, math), s);
  }

  /** The crossover loop's state before cell `n`: the cells below `n` and the
      remaining draws are those of `Mix`, and the rest is still blank. */
  ghost predicate MixedUpTo(cells: seq<Symbol>, p1: seq<Symbol>, p2: seq<Symbol>, draws: seq<nat>, rest: seq<nat>, n: nat)
    requires WellShaped(p1) && WellShaped(p2)
  {
    n <= NUM_CELLS && |cells| == NUM_CELLS &&
    cells[..n] == Mix(p1, p2, draws, n).cells && rest == Mix(p1, p2, draws, n).rest &&
    forall j :: n <= j < NUM_CELLS ==> cells[j] == BLANK
  }

  /** The tournament after `t` samples: no leader yet before the first, and
      afterwards the sample `WinnerAmong` names. */
  predicate Leading(population: seq<Layout>, draws: seq<nat>, t: nat, best: Option<nat>)
    requires |population| > 0
  {
    if t == 0 then best.None? else best == Some(Sample(draws, |population|, WinnerAmong(population, draws, t)))
  }

  class GeneticAlgorithm {
    const config: GaConfig
    const evaluator: Evaluator
    const rng: Rng
    const hiraganaChars: seq<Symbol>
    const math: Math
    /** The scores of every grid under the evaluator. */
    ghost const scoresOf: seq<Symbol> -> EvaluationScores

    /** The evaluator can divide by its weight sums, and `scoresOf` gives the
        scores it computes. */
    ghost predicate Valid()
    {
      && UsableWeights(evaluator.weights)
      && forall cells, s :: WellShaped(cells) && IsLayoutScores(evaluator, cells, math, s) ==> scoresOf(cells) == s
    }

    /** `GeneticAlgorithm::new`: the evaluator with the default weights. The
        generator is given as the draws the seed determines. */
    constructor New(corpus: CorpusStats, config: GaConfig, draws: seq<nat>, math: Math)
      ensures Valid()
      ensures this.config == config && this.math == math
      ensures evaluator.corpus == corpus && evaluator.weights == DefaultWeights()
      ensures hiraganaChars == KanaList(corpus)
      ensures fresh(rng) && rng.draws == draws
    {
      var ev := NewEvaluator(corpus);
      this.config := config;
      evaluator := ev;
      rng := new Rng.FromDraws(draws);
      hiraganaChars := KanaList(corpus);
      this.math := math;
      scoresOf := cells => ChosenScores(ev, cells, math);
      forall cells, s | WellShaped(cells) && IsLayoutScores(ev, cells, math, s) ensures ChosenScores(ev, cells, math) == s {
        ChosenScoresAre(ev, cells, math, s);
      }
    }

    /** `GeneticAlgorithm::with_weights`. The optimiser is usable when the
        weight sums it divides by are non-zero. */
    constructor WithWeights(corpus: CorpusStats, config: GaConfig, weights: EvaluationWeights, draws: seq<nat>, math: Math)
      ensures UsableWeights(weights) ==> Valid()
      ensures this.config == config && this.math == math
      ensures evaluator.corpus == corpus && evaluator.weights == weights
      ensures hiraganaChars == KanaList(corpus)
      ensures fresh(rng) && rng.draws == draws
    {
      var ev := Evaluation.WithWeights(corpus, weights);
      this.config := config;
      evaluator := ev;
      rng := new Rng.FromDraws(draws);
      hiraganaChars := KanaList(corpus);
      this.math := math;
      scoresOf := cells => ChosenScores(ev, cells, math);
      forall cells, s | WellShaped(cells) && IsLayoutScores(ev, cells, math, s) ensures ChosenScores(ev, cells, math) == s {
        ChosenScoresAre(ev, cells, math, s);
      }
    }

    /** A layout the evaluator has scored: its scores are those of its grid and
        its fitness is the one the scores give. */
    ghost predicate Evaluated(l: Layout)
    {
      WellShaped(l.cells) && UsableWeights(evaluator.weights)
      && l.scores == scoresOf(l.cells)
      && l.fitness == ComputeFitness(evaluator.weights, l.scores, math)
    }

    /** Reordering a scored population keeps it scored. */
    lemma EvaluatedPermutation(a: seq<Layout>, b: seq<Layout>)
      requires multiset(a) == multiset(b)
      requires forall k :: 0 <= k < |a| ==> Evaluated(a[k])
      ensures forall k :: 0 <= k < |b| ==> Evaluated(b[k])
    {
      forall k | 0 <= k < |b| ensures Evaluated(b[k]) {
        assert b[k] in multiset(a);
        var j :| 0 <= j < |a| && a[j] == b[k];
      }
    }

    /** A scored layout holds the scores `compute_scores` gives its grid. */
    lemma EvaluatedScores(l: Layout, s: EvaluationScores)
      requires Valid() && Evaluated(l) && IsLayoutScores(evaluator, l.cells, math, s)
      ensures l.scores == s && l.fitness == ComputeFitness(evaluator.weights, s, math)
    {
    }

    /** With positive weights every scored layout has a fitness in (0, 200]. */
    lemma EvaluatedFitnessBounds(l: Layout, s: EvaluationScores)
      requires Valid() && Evaluated(l) && IsLayoutScores(evaluator, l.cells, math, s)
      requires evaluator.weights.Positive() && PowfSane(math) && forall x :: math.exp(x) > 0.0
      ensures 0.0 < l.fitness <= 200.0
    {
      LayoutFitnessBounds(evaluator, l.cells, math, s);
    }

    /** `self.evaluator.evaluate(&mut layout)`. */
    method EvaluateLayout(layout: Layout) returns (evaluated: Layout)
      requires Valid() && WellShaped(layout.cells)
      ensures evaluated.cells == layout.cells && Evaluated(evaluated)
    {
      var fitness;
      fitness, evaluated := Evaluate(evaluator, layout, math);
    }

    /** `repair_layout`: in columns 0-9, every repeated occurrence of a counted
        symbol is overwritten with one of the listed symbols the grid lacks, in
        shuffled order, or with a blank once those run out. `missing` is the
        shuffled list the generator produced. */
    method RepairLayout(layout: Layout) returns (repaired: Layout, ghost missing: seq<Symbol>)
      requires WellShaped(layout.cells)
      modifies rng
      ensures multiset(missing) == multiset(MissingFrom(hiraganaChars, Seen(layout.cells)))
      ensures repaired == layout.(cells := Repaired(layout.cells, missing))
      ensures WellShaped(repaired.cells)
      ensures rng.draws == Drop(old(rng.draws), RepairDraws(hiraganaChars, layout.cells))
    {
      var cells := layout.cells;
      var seen: set<Symbol> := {};
      var duplicates: seq<nat> := [];
      for i := 0 to |cells|
        invariant seen == SeenBelow(cells, i) && duplicates == DuplicatesBelow(cells, i)
      {
        if InGaColumns(i) {
          var c := cells[i];
          if c !in REPAIR_SKIPPED {
            if c in seen {
              duplicates := duplicates + [i];
            } else {
              seen := seen + {c};
            }
          }
        }
      }
      var absent: seq<Symbol> := [];
      for k := 0 to |hiraganaChars|
        invariant absent == MissingFrom(hiraganaChars[..k], seen)
      {
        assert hiraganaChars[..k + 1][..k] == hiraganaChars[..k];
        if hiraganaChars[k] !in seen {
          absent := absent + [hiraganaChars[k]];
        }
      }
      assert hiraganaChars[..|hiraganaChars|] == hiraganaChars;
      var shuffled := rng.Shuffle(absent);
      missing := shuffled;
      var out := cells;
      for k := 0 to |duplicates|
        invariant out == OverwriteFirst(cells, duplicates, shuffled, k)
      {
        var replacement := if k < |shuffled| then shuffled[k] else BLANK;
        out := out[duplicates[k] := replacement];
      }
      repaired := layout.(cells := out);
      RepairWrites(cells, shuffled);
    }

    /** `crossover`: column by column through columns 0-9, a fixed cell comes
        from the first parent and every other cell from a parent chosen by a
        coin; column 10 keeps the empty grid's blank. The child is then
        repaired. */
    method Crossover(parent1: Layout, parent2: Layout) returns (child: Layout, ghost mixed: seq<Symbol>, ghost missing: seq<Symbol>)
      requires WellShaped(parent1.cells) && WellShaped(parent2.cells)
      modifies rng
      ensures mixed == UniformChild(parent1.cells, parent2.cells, old(rng.draws))
      ensures multiset(missing) == multiset(MissingFrom(hiraganaChars, Seen(mixed)))
      ensures child == Default().(cells := Repaired(mixed, missing))
      ensures WellShaped(child.cells)
      ensures rng.draws == Drop(old(rng.draws), CrossoverDraws(mixed))
    {
      ghost var draws := rng.draws;
      var cells := Default().cells;
      for i := 0 to NUM_CELLS
        invariant MixedUpTo(cells, parent1.cells, parent2.cells, draws, rng.draws, i)
      {
        cells := MixCell(parent1.cells, parent2.cells, cells, i, draws);
      }
      assert cells == cells[..NUM_CELLS];
      mixed := cells;
      MixDraws(parent1.cells, parent2.cells, draws, NUM_CELLS);
      child, missing := RepairLayout(Default().(cells := cells));
      DropDrop(draws, |MovableBelow(NUM_CELLS)|, RepairDraws(hiraganaChars, mixed));
    }

    /** The draws a crossover takes: one coin per movable cell, then the
        repair's shuffle of the child `mixed`. */
    function CrossoverDraws(mixed: seq<Symbol>): nat
    {
      |MovableBelow(NUM_CELLS)| + RepairDraws(hiraganaChars, mixed)
    }

    /** One pass of the crossover loop: cell `i` of the child from the two
        parents. */
    method MixCell(p1: seq<Symbol>, p2: seq<Symbol>, cells: seq<Symbol>, i: nat, ghost draws: seq<nat>)
      returns (cells': seq<Symbol>)
      requires WellShaped(p1) && WellShaped(p2) && i < NUM_CELLS
      requires MixedUpTo(cells, p1, p2, draws, rng.draws, i)
      modifies rng
      ensures MixedUpTo(cells', p1, p2, draws, rng.draws, i + 1)
    {
      cells' := cells;
      if InGaColumns(i) {
        if IsFixedCell(i) {
          cells' := cells'[i := p1[i]];
        } else {
          var coin := rng.GenBool();
          if coin {
            cells' := cells'[i := p1[i]];
          } else {
            cells' := cells'[i := p2[i]];
          }
        }
      }
      TakeNext(cells', i);
      assert cells'[..i] == cells[..i];
    }

    /** `mutate`: exchange the contents of two movable cells drawn at random. */
    method Mutate(layout: Layout) returns (mutated: Layout)
      requires WellShaped(layout.cells)
      modifies rng
      ensures mutated == layout.(cells := Mutated(layout.cells, old(rng.draws)))
      ensures rng.draws == Drop(old(rng.draws), MutationDraws())
    {
      var positions := MutablePositions();
      mutated := SwapDrawn(layout, positions);
    }

    /** The body of `mutate` once `positions` is collected: two indices into it
        are drawn, and the two cells are exchanged when the indices differ. */
    method SwapDrawn(layout: Layout, positions: seq<nat>) returns (mutated: Layout)
      requires |layout.cells| == NUM_CELLS
      requires forall k :: 0 <= k < |positions| ==> positions[k] < NUM_CELLS
      modifies rng
      ensures mutated == layout.(cells := MutatedAt(layout.cells, positions, old(rng.draws)))
      ensures rng.draws == Drop(old(rng.draws), MutationDrawsAt(positions))
    {
      ghost var draws := rng.draws;
      mutated := layout;
      if |positions| >= 2 {
        var idx1 := rng.GenRange(|positions|);
        var idx2 := rng.GenRange(|positions|);
        assert (idx1, idx2) == MutationPicks(positions, draws);
        if idx1 != idx2 {
          var a, b := positions[idx1], positions[idx2];
          var tmp := mutated.cells[a];
          mutated := mutated.(cells := mutated.cells[a := mutated.cells[b]]);
          mutated := mutated.(cells := mutated.cells[b := tmp]);
        }
        DropTwice(draws, 1);
      }
    }

    /** `tournament_select`: five samples with replacement; the first fittest
        wins. */
    method TournamentSelect(population: seq<Layout>) returns (winner: Layout)
      requires |population| > 0
      modifies rng
      ensures winner == TournamentWinner(population, old(rng.draws))
      ensures rng.draws == Drop(old(rng.draws), TOURNAMENT_SIZE)
    {
      ghost var draws := rng.draws;
      var best: Option<nat> := None;
      for t := 0 to TOURNAMENT_SIZE
        invariant rng.draws == Drop(draws, t)
        invariant Leading(population, draws, t, best)
      {
        best := Round(population, best, t, draws);
      }
      winner := population[best.value];
    }

    /** One sample of the tournament: the new sample replaces the leader only
        when it is strictly fitter. */
    method Round(population: seq<Layout>, best: Option<nat>, t: nat, ghost draws: seq<nat>) returns (best': Option<nat>)
      requires |population| > 0 && rng.draws == Drop(draws, t) && Leading(population, draws, t, best)
      modifies rng
      ensures rng.draws == Drop(draws, t + 1) && Leading(population, draws, t + 1, best')
    {
      DropTwice(draws, t);
      var idx := rng.GenRange(|population|);
      assert idx == Sample(draws, |population|, t);
      best' := best;
      if best.None? || population[idx].fitness > population[best.value].fitness {
        best' := Some(idx);
      }
    }

    /** A layout `Layout::random_with_chars` can return for the symbol list:
        a full grid with the fixed symbols and forced blanks in place, whose
        free cells hold a permutation of the list brought to 112 entries. */
    ghost predicate RandomLayout(raw: Layout)
    {
      WellShaped(raw.cells) && HasFixedSymbols(raw.cells) && HasBlankCells(raw.cells)
      && multiset(FreeContents(raw.cells)) == multiset(PadOrTruncate(hiraganaChars, FREE_CELLS))
    }

    /** `member` is `raw` repaired with `missing`, a shuffle of the listed
        symbols `raw` lacks, and then scored. */
    ghost predicate RepairedMember(raw: Layout, missing: seq<Symbol>, member: Layout)
    {
      && multiset(missing) == multiset(MissingFrom(hiraganaChars, Seen(raw.cells)))
      && member.cells == Repaired(raw.cells, missing) && Evaluated(member)
    }

    /** The first member of the initial population: the hand-made layout,
        repaired and scored. */
    method SeedLayout() returns (seed: Layout, ghost missing: seq<Symbol>)
      requires Valid()
      modifies rng
      ensures RepairedMember(ImprovedCustom(), missing, seed)
    {
      var custom := ImprovedCustom();
      custom, missing := RepairLayout(custom);
      seed := EvaluateLayout(custom);
    }

    /** A further member of the initial population: a random layout over the
        symbol list, repaired and scored; `raw` is the random layout. */
    method RandomMember() returns (member: Layout, ghost raw: Layout, ghost missing: seq<Symbol>)
      requires Valid()
      modifies rng
      ensures RandomLayout(raw) && RepairedMember(raw, missing, member)
    {
      var layout := RandomWithChars(rng, hiraganaChars);
      raw := layout;
      layout, missing := RepairLayout(layout);
      member := EvaluateLayout(layout);
    }

    /** The members of an initial population and what they were made from:
        member 0 from the hand-made layout, the others from random layouts,
        each repaired with its own shuffled list and scored. */
    ghost predicate InitialMembers(population: seq<Layout>, raws: seq<Layout>, missings: seq<seq<Symbol>>)
    {
      && |population| == |raws| == |missings| > 0
      && raws[0] == ImprovedCustom()
      && (forall k :: 1 <= k < |raws| ==> RandomLayout(raws[k]))
      && forall k :: 0 <= k < |population| ==> RepairedMember(raws[k], missings[k], population[k])
    }

    /** The initial population: the repaired hand-made layout first, then
        repaired random layouts up to the configured size, all scored. */
    method InitialPopulation() returns (population: seq<Layout>, ghost raws: seq<Layout>, ghost missings: seq<seq<Symbol>>)
      requires Valid()
      modifies rng
      ensures |population| == if config.populationSize > 1 then config.populationSize else 1
      ensures InitialMembers(population, raws, missings)
      ensures forall k :: 0 <= k < |population| ==> Evaluated(population[k])
    {
      var custom;
      ghost var missing;
      custom, missing := SeedLayout();
      InitialMembersStart(custom, missing);
      population, raws, missings := [custom], [ImprovedCustom()], [missing];
      var k := 1;
      while k < config.populationSize
        invariant 1 <= k && |population| == k
        invariant k <= if config.populationSize > 1 then config.populationSize else 1
        invariant InitialMembers(population, raws, missings)
        decreases config.populationSize - k
      {
        population, raws, missings := AddRandomMember(population, raws, missings);
        k := k + 1;
      }
      InitialMembersEvaluated(population, raws, missings);
    }

    /** One pass of the filling loop: one more repaired random member. */
    method AddRandomMember(population: seq<Layout>, ghost raws: seq<Layout>, ghost missings: seq<seq<Symbol>>)
      returns (population': seq<Layout>, ghost raws': seq<Layout>, ghost missings': seq<seq<Symbol>>)
      requires Valid() && InitialMembers(population, raws, missings)
      modifies rng
      ensures InitialMembers(population', raws', missings')
      ensures |population'| == |population| + 1 && population'[..|population|] == population
    {
      var layout;
      ghost var raw, missing;
      layout, raw, missing := RandomMember();
      InitialMembersAppend(population, raws, missings, layout, raw, missing);
      population', raws', missings' := population + [layout], raws + [raw], missings + [missing];
    }

    lemma InitialMembersStart(seed: Layout, missing: seq<Symbol>)
      requires RepairedMember(ImprovedCustom(), missing, seed)
      ensures InitialMembers([seed], [ImprovedCustom()], [missing])
    {
    }

    lemma InitialMembersAppend(population: seq<Layout>, raws: seq<Layout>, missings: seq<seq<Symbol>>,
                               member: Layout, raw: Layout, missing: seq<Symbol>)
      requires InitialMembers(population, raws, missings)
      requires RandomLayout(raw) && RepairedMember(raw, missing, member)
      ensures InitialMembers(population + [member], raws + [raw], missings + [missing])
    {
      var p', r', m' := population + [member], raws + [raw], missings + [missing];
      forall k | 0 <= k < |p'| ensures RepairedMember(r'[k], m'[k], p'[k]) {
        if k < |population| {
          assert p'[k] == population[k] && r'[k] == raws[k] && m'[k] == missings[k];
        }
      }
      forall k | 1 <= k < |r'| ensures RandomLayout(r'[k]) {
        if k < |raws| {
          assert r'[k] == raws[k];
        }
      }
    }

    lemma InitialMembersEvaluated(population: seq<Layout>, raws: seq<Layout>, missings: seq<seq<Symbol>>)
      requires InitialMembers(population, raws, missings)
      ensures forall k :: 0 <= k < |population| ==> Evaluated(population[k])
    {
      forall k | 0 <= k < |population| ensures Evaluated(population[k]) {
        assert RepairedMember(raws[k], missings[k], population[k]);
      }
    }

    /** The child the breeding step makes of two parents from the draws at
        its start: the repaired crossover child and, when the coin drawn next
        falls below the mutation rate, that child mutated and repaired once
        more. `missing` and `missing'` are the shuffled lists of the two
        repairs; the coin is the first draw the crossover leaves. */
    ghost predicate Bred(p1: Layout, p2: Layout, draws: seq<nat>, child: Layout,
                         missing: seq<Symbol>, missing': seq<Symbol>)
      requires WellShaped(p1.cells) && WellShaped(p2.cells)
    {
      var mixed := UniformChild(p1.cells, p2.cells, draws);
      var crossed := Repaired(mixed, missing);
      var coinDraws := Drop(draws, CrossoverDraws(mixed));
      && multiset(missing) == multiset(MissingFrom(hiraganaChars, Seen(mixed)))
      && if UnitOf(coinDraws) < config.mutationRate then
           var mutated := Mutated(crossed, Drop(coinDraws, 1));
           && multiset(missing') == multiset(MissingFrom(hiraganaChars, Seen(mutated)))
           && child == Default().(cells := Repaired(mutated, missing'))
         else
           child == Default().(cells := crossed)
    }

    /** Crossover of two parents, then with the mutation probability a
        mutation followed by a second repair. */
    method Offspring(parent1: Layout, parent2: Layout)
      returns (child: Layout, ghost missing: seq<Symbol>, ghost missing': seq<Symbol>)
      requires WellShaped(parent1.cells) && WellShaped(parent2.cells)
      modifies rng
      ensures Bred(parent1, parent2, old(rng.draws), child, missing, missing')
      ensures WellShaped(child.cells)
    {
      ghost var mixed;
      child, mixed, missing := Crossover(parent1, parent2);
      missing' := [];
      var r := rng.GenUnit();
      if r < config.mutationRate {
        child := Mutate(child);
        child, missing' := RepairLayout(child);
      }
    }

    /** Every member of a scored population has a full grid. */
    lemma ScoredShapes(population: seq<Layout>)
      requires forall k :: 0 <= k < |population| ==> Evaluated(population[k])
      ensures forall k :: 0 <= k < |population| ==> WellShaped(population[k].cells)
    {
    }

    /** One child of the generation loop: two tournaments, the offspring of
        the two winners, and its scoring. `bred` is the child before it is
        scored. */
    method Breed(population: seq<Layout>)
      returns (child: Layout, ghost parent1: Layout, ghost parent2: Layout, ghost bred: Layout,
               ghost missing: seq<Symbol>, ghost missing': seq<Symbol>)
      requires Valid()
      requires |population| > 0 && forall k :: 0 <= k < |population| ==> Evaluated(population[k])
      modifies rng
      ensures parent1 == TournamentWinner(population, old(rng.draws))
      ensures parent2 == TournamentWinner(population, Drop(old(rng.draws), TOURNAMENT_SIZE))
      ensures WellShaped(parent1.cells) && WellShaped(parent2.cells)
      ensures Bred(parent1, parent2, Drop(old(rng.draws), 2 * TOURNAMENT_SIZE), bred, missing, missing')
      ensures child.cells == bred.cells && Evaluated(child)
    {
      ghost var draws := rng.draws;
      ScoredShapes(population);
      var p1 := TournamentSelect(population);
      var p2 := TournamentSelect(population);
      DropDrop(draws, TOURNAMENT_SIZE, TOURNAMENT_SIZE);
      parent1, parent2 := p1, p2;
      var offspring;
      offspring, missing, missing' := Offspring(p1, p2);
      bred := offspring;
      child := EvaluateLayout(offspring);
    }

    /** The elitism step: the first `min(elite_count, len)` members, in rank
        order. */
    method KeepElites(population: seq<Layout>) returns (elites: seq<Layout>)
      ensures elites == population[..if config.eliteCount < |population| then config.eliteCount else |population|]
    {
      var eliteCount := if config.eliteCount < |population| then config.eliteCount else |population|;
      elites := [];
      for i := 0 to eliteCount
        invariant elites == population[..i]
      {
        elites := elites + [population[i]];
      }
    }

    /** The breeding step: children appended until the configured size. */
    method FillUp(population: seq<Layout>, start: seq<Layout>) returns (full: seq<Layout>)
      requires Valid()
      requires |population| > 0 && forall k :: 0 <= k < |population| ==> Evaluated(population[k])
      requires forall k :: 0 <= k < |start| ==> Evaluated(start[k])
      modifies rng
      ensures |full| == if |start| < config.populationSize then config.populationSize else |start|
      ensures full[..|start|] == start
      ensures forall k :: 0 <= k < |full| ==> Evaluated(full[k])
    {
      full := start;
      while |full| < config.populationSize
        invariant |start| <= |full| && (|start| < config.populationSize ==> |full| <= config.populationSize)
        invariant |start| >= config.populationSize ==> full == start
        invariant full[..|start|] == start
        invariant forall k :: 0 <= k < |full| ==> Evaluated(full[k])
        decreases config.populationSize - |full|
      {
        full := AddChild(population, full);
      }
    }

    /** One pass of the breeding loop: one more bred and scored child. */
    method AddChild(population: seq<Layout>, full: seq<Layout>) returns (full': seq<Layout>)
      requires Valid()
      requires |population| > 0 && forall k :: 0 <= k < |population| ==> Evaluated(population[k])
      requires forall k :: 0 <= k < |full| ==> Evaluated(full[k])
      modifies rng
      ensures |full'| == |full| + 1 && full'[..|full|] == full
      ensures forall k :: 0 <= k < |full'| ==> Evaluated(full'[k])
    {
      var child;
      ghost var parent1, parent2, bred, missing, missing';
      child, parent1, parent2, bred, missing, missing' := Breed(population);
      full' := full + [child];
      assert full'[..|full|] == full;
    }

    /** One generation: the elites copied in rank order, children bred until
        the configured size, then the stable sort by fitness. */
    method NextGeneration(population: seq<Layout>) returns (next: seq<Layout>)
      requires Valid()
      requires |population| > 0 && forall k :: 0 <= k < |population| ==> Evaluated(population[k])
      modifies rng
      ensures |next| == NextSize(config, |population|)
      ensures forall k :: 0 <= k < |next| ==> Evaluated(next[k])
      ensures SortedByKeyDesc(next, Fitness)
      ensures multiset(population[..if config.eliteCount < |population| then config.eliteCount else |population|]) <= multiset(next)
    {
      var elites := KeepElites(population);
      var newPopulation := FillUp(population, elites);
      assert newPopulation == elites + newPopulation[|elites|..];
      next := SortByFitness(newPopulation);
      EvaluatedPermutation(newPopulation, next);
    }

    /** Elitism: with at least one elite, a generation's front is at least as
        fit as the previous front. */
    lemma ElitismKeepsFront(population: seq<Layout>, next: seq<Layout>)
      requires |population| > 0 && config.eliteCount >= 1
      requires SortedByKeyDesc(next, Fitness)
      requires multiset(population[..if config.eliteCount < |population| then config.eliteCount else |population|]) <= multiset(next)
      ensures |next| > 0 && next[0].fitness >= population[0].fitness
    {
      var elites := population[..if config.eliteCount < |population| then config.eliteCount else |population|];
      assert elites[0] == population[0];
      assert population[0] in multiset(next);
      SortedFront(next);
    }

    /** The initial population in rank order; `initial` is the population
        before the sort. */
    method SortedInitialPopulation()
      returns (population: seq<Layout>, ghost initial: seq<Layout>, ghost raws: seq<Layout>, ghost missings: seq<seq<Symbol>>)
      requires Valid()
      modifies rng
      ensures |initial| == if config.populationSize > 1 then config.populationSize else 1
      ensures InitialMembers(initial, raws, missings)
      ensures forall k :: 0 <= k < |initial| ==> Evaluated(initial[k])
      ensures population == SortByFitness(initial)
      ensures |population| > 0 && forall k :: 0 <= k < |population| ==> Evaluated(population[k])
    {
      var unsorted;
      unsorted, raws, missings := InitialPopulation();
      initial := unsorted;
      population := SortByFitness(unsorted);
      EvaluatedPermutation(unsorted, population);
    }

    /** The last step of a run: the best layout is repaired and scored once
        more. `missing` is the shuffled list of symbols the repair placed. */
    method FinalCheck(best: Layout) returns (final: Layout, ghost missing: seq<Symbol>)
      requires Valid() && WellShaped(best.cells)
      modifies rng
      ensures multiset(missing) == multiset(MissingFrom(hiraganaChars, Seen(best.cells)))
      ensures final.cells == Repaired(best.cells, missing) && Evaluated(final)
    {
      var repaired;
      repaired, missing := RepairLayout(best);
      final := EvaluateLayout(repaired);
    }

    /** One pass of the generation loop: the next generation, and the best
        layout so far, replaced only by a strictly fitter front. */
    method Advance(population: seq<Layout>, best: Layout) returns (next: seq<Layout>, newBest: Layout)
      requires Valid()
      requires config.populationSize >= 1 || config.eliteCount >= 1
      requires |population| > 0 && forall k :: 0 <= k < |population| ==> Evaluated(population[k])
      requires Evaluated(best)
      modifies rng
      ensures |next| > 0 && forall k :: 0 <= k < |next| ==> Evaluated(next[k])
      ensures SortedByKeyDesc(next, Fitness)
      ensures newBest == if next[0].fitness > best.fitness then next[0] else best
      ensures Evaluated(newBest) && forall k :: 0 <= k < |next| ==> next[k].fitness <= newBest.fitness
      ensures config.eliteCount >= 1 ==> next[0].fitness >= population[0].fitness
    {
      next := NextGeneration(population);
      SortedFront(next);
      if config.eliteCount >= 1 {
        ElitismKeepsFront(population, next);
      }
      newBest := best;
      if next[0].fitness > best.fitness {
        newBest := next[0];
      }
    }

    /** `calls[g]` is the callback's call after generation g: the generation,
        the best fitness so far and a scored layout with that fitness. */
    ghost predicate Reported(calls: seq<(nat, real, Layout)>, history: seq<real>)
    {
      |calls| == |history|
      && forall g :: 0 <= g < |calls| ==>
           calls[g].0 == g && calls[g].1 == history[g] && calls[g].2.fitness == history[g] && Evaluated(calls[g].2)
    }

    lemma ReportedAppend(calls: seq<(nat, real, Layout)>, history: seq<real>, best: Layout)
      requires Reported(calls, history) && Evaluated(best)
      ensures Reported(calls + [(|calls|, best.fitness, best)], history + [best.fitness])
    {
    }

    /** The generation loop of `run_with_callback`, from the sorted initial
        population: after every generation the best layout so far is the
        front of the new population when that is strictly fitter. */
    method Generations(initial: seq<Layout>)
      returns (history: seq<real>, calls: seq<(nat, real, Layout)>, ghost populations: seq<seq<Layout>>, best: Layout)
      requires Valid()
      requires config.populationSize >= 1 || config.eliteCount >= 1 || config.generations == 0
      requires |initial| > 0 && forall k :: 0 <= k < |initial| ==> Evaluated(initial[k])
      requires SortedByKeyDesc(initial, Fitness)
      modifies rng
      ensures |history| == config.generations + 1 && history[0] == initial[0].fitness
      ensures Recorded(history, calls, populations) && Tracked(history, populations)
      ensures populations[0] == initial && calls[config.generations].2 == best && Evaluated(best)
    {
      SortedFront(initial);
      var population := initial;
      var bestLayout := population[0];
      history := [bestLayout.fitness];
      calls := [(0, bestLayout.fitness, bestLayout)];
      populations := [population];
      var gen := 1;
      while gen <= config.generations
        invariant gen <= config.generations + 1
        invariant Running(gen, population, bestLayout, history, calls, populations, initial)
      {
        population, bestLayout, history, calls, populations :=
          Step(gen, population, bestLayout, history, calls, populations, initial);
        gen := gen + 1;
      }
      best := bestLayout;
    }

    /** The state of the generation loop before generation `gen`: a scored
        population, the records of generations 0 to gen - 1, the last of them
        reporting the best layout so far, and the first the initial
        population. */
    ghost predicate Running(gen: nat, population: seq<Layout>, bestLayout: Layout, history: seq<real>,
                            calls: seq<(nat, real, Layout)>, populations: seq<seq<Layout>>, initial: seq<Layout>)
      reads this
    {
      && 1 <= gen && |initial| > 0
      && |population| > 0 && (forall k :: 0 <= k < |population| ==> Evaluated(population[k]))
      && |history| == gen && Recorded(history, calls, populations) && Tracked(history, populations)
      && calls[gen - 1].2 == bestLayout && history[0] == initial[0].fitness && populations[0] == initial
    }

    /** One generation of the loop and the records it leaves: the new
        population, the best layout so far, and one more history entry,
        callback call and population. */
    method Step(ghost gen: nat, population: seq<Layout>, bestLayout: Layout, history: seq<real>,
                calls: seq<(nat, real, Layout)>, ghost populations: seq<seq<Layout>>, ghost initial: seq<Layout>)
      returns (population': seq<Layout>, bestLayout': Layout, history': seq<real>,
               calls': seq<(nat, real, Layout)>, ghost populations': seq<seq<Layout>>)
      requires Valid()
      requires config.populationSize >= 1 || config.eliteCount >= 1
      requires Running(gen, population, bestLayout, history, calls, populations, initial)
      modifies rng
      ensures Running(gen + 1, population', bestLayout', history', calls', populations', initial)
      ensures bestLayout' == if population'[0].fitness > bestLayout.fitness then population'[0] else bestLayout
      ensures history' == history + [bestLayout'.fitness] && populations' == populations + [population']
      ensures calls' == calls + [(|calls|, bestLayout'.fitness, bestLayout')]
    {
      population', bestLayout' := Advance(population, bestLayout);
      RecordedAppend(history, calls, populations, population', bestLayout');
      TrackedAppend(history, populations, population', bestLayout'.fitness);
      history' := history + [bestLayout'.fitness];
      calls' := calls + [(|calls|, bestLayout'.fitness, bestLayout')];
      populations' := populations + [population'];
    }

    /** The records of a run so far: the history never decreases, `calls`
        reports it, and every generation is dominated by its history entry;
        the last entry is the last reported layout's fitness. */
    ghost predicate Recorded(history: seq<real>, calls: seq<(nat, real, Layout)>, populations: seq<seq<Layout>>)
    {
      |history| > 0 && NonDecreasing(history) && Reported(calls, history) && Dominated(populations, history)
    }

    lemma RecordedAppend(history: seq<real>, calls: seq<(nat, real, Layout)>, populations: seq<seq<Layout>>,
                         population: seq<Layout>, best: Layout)
      requires Recorded(history, calls, populations) && Evaluated(best)
      requires history[|history| - 1] <= best.fitness
      requires forall k :: 0 <= k < |population| ==> population[k].fitness <= best.fitness
      ensures Recorded(history + [best.fitness], calls + [(|calls|, best.fitness, best)], populations + [population])
    {
      NonDecreasingAppend(history, best.fitness);
      ReportedAppend(calls, history, best);
      DominatedAppend(populations, history, population, best.fitness);
    }

    /** The populations of the generations so far and the history beside
        them: every population is non-empty, scored and in rank order; the
        history starts at the front of generation 0, and each later entry is
        the larger of the entry before it and the fitness of its generation's
        front. */
    ghost predicate Tracked(history: seq<real>, populations: seq<seq<Layout>>)
    {
      && |history| == |populations| > 0
      && (forall g :: 0 <= g < |populations| ==>
            |populations[g]| > 0 && SortedByKeyDesc(populations[g], Fitness)
            && forall k :: 0 <= k < |populations[g]| ==> Evaluated(populations[g][k]))
      && history[0] == populations[0][0].fitness
      && forall g :: 1 <= g < |history| ==> history[g] == Max(history[g - 1], populations[g][0].fitness)
    }

    lemma TrackedAppend(history: seq<real>, populations: seq<seq<Layout>>, population: seq<Layout>, best: real)
      requires Tracked(history, populations)
      requires |population| > 0 && SortedByKeyDesc(population, Fitness)
      requires forall k :: 0 <= k < |population| ==> Evaluated(population[k])
      requires best == Max(history[|history| - 1], population[0].fitness)
      ensures Tracked(history + [best], populations + [population])
    {
    }

    /** Every member of the initial population, the repaired hand-made
        layout among them, is at most as fit as every history entry. */
    lemma InitialBelowHistory(initial: seq<Layout>, history: seq<real>)
      requires |initial| > 0 && |history| > 0 && NonDecreasing(history)
      requires history[0] == SortByFitness(initial)[0].fitness
      ensures forall g, k :: 0 <= g < |history| && 0 <= k < |initial| ==> initial[k].fitness <= history[g]
    {
      var sorted := SortByFitness(initial);
      SortedFront(sorted);
      forall g, k | 0 <= g < |history| && 0 <= k < |initial| ensures initial[k].fitness <= history[g] {
        assert initial[k] in multiset(sorted);
        assert history[0] <= history[g];
      }
    }

    /** `run_with_callback`: the callback's arguments for every generation are
        returned as `calls`. The history holds the best fitness after every
        generation, generation 0 included, and never decreases; the best layout
        is repaired and scored once more at the end, with `missing` the list of
        symbols that repair placed. `populations[g]` is the population of
        generation g, in rank order; generation 0 is the sorted initial
        population `initial`. */
    method RunWithCallback() returns (result: GaResult, calls: seq<(nat, real, Layout)>, ghost initial: seq<Layout>,
                                      ghost raws: seq<Layout>, ghost initialMissing: seq<seq<Symbol>>,
                                      ghost populations: seq<seq<Layout>>, ghost missing: seq<Symbol>)
      requires Valid()
      requires config.populationSize >= 1 || config.eliteCount >= 1 || config.generations == 0
      modifies rng
      ensures |result.fitnessHistory| == config.generations + 1 && NonDecreasing(result.fitnessHistory)
      ensures result.finalGeneration == config.generations
      ensures Reported(calls, result.fitnessHistory)
      ensures Dominated(populations, result.fitnessHistory)
      ensures |initial| == if config.populationSize > 1 then config.populationSize else 1
      ensures forall k :: 0 <= k < |initial| ==> Evaluated(initial[k])
      ensures InitialMembers(initial, raws, initialMissing)
      ensures |populations| == config.generations + 1 && populations[0] == SortByFitness(initial)
      ensures forall g :: 0 <= g <= config.generations ==>
                |populations[g]| > 0 && SortedByKeyDesc(populations[g], Fitness)
                && forall k :: 0 <= k < |populations[g]| ==> Evaluated(populations[g][k])
      ensures result.fitnessHistory[0] == populations[0][0].fitness
      ensures forall g :: 1 <= g <= config.generations ==>
                result.fitnessHistory[g] == Max(result.fitnessHistory[g - 1], populations[g][0].fitness)
      ensures Evaluated(result.bestLayout) && result.bestFitness == result.bestLayout.fitness
      ensures multiset(missing) == multiset(MissingFrom(hiraganaChars, Seen(calls[config.generations].2.cells)))
      ensures result.bestLayout.cells == Repaired(calls[config.generations].2.cells, missing)
      ensures forall g, k :: 0 <= g <= config.generations && 0 <= k < |initial| ==>
                initial[k].fitness <= result.fitnessHistory[g]
    {
      var population;
      population, initial, raws, initialMissing := SortedInitialPopulation();
      var history, best;
      history, calls, populations, best := Generations(population);
      InitialBelowHistory(initial, history);
      var final;
      final, missing := FinalCheck(best);
      result := GaResult(final, final.fitness, history, config.generations);
    }
  }

  // ---------------------------------------------------------------------------
  // Summary of several runs
  // ---------------------------------------------------------------------------

  /** The summary `summarize_results` returns, with the variance in place of its
      square root and the index of the best run in place of a reference. */
  datatype RunSummary = RunSummary(mean: real, variance: real, min: real, max: real, best: nat)

  function BestFitnesses(results: seq<GaResult>): (r: seq<real>)
    ensures |r| == |results| && forall k :: 0 <= k < |r| ==> r[k] == results[k].bestFitness
  {
    seq(|results|, k requires 0 <= k < |results| => results[k].bestFitness)
  }

  function MinOf(xs: seq<real>): real
    requires |xs| > 0
  {
    if |xs| == 1 then xs[0] else Min(MinOf(xs[..|xs| - 1]), xs[|xs| - 1])
  }

  function MaxOf(xs: seq<real>): real
    requires |xs| > 0
  {
    if |xs| == 1 then xs[0] else Max(MaxOf(xs[..|xs| - 1]), xs[|xs| - 1])
  }

  /** `max_by` keeps the later of two equal elements: the last maximum. */
  function LastMaxIndex(xs: seq<real>): (i: nat)
    requires |xs| > 0
    ensures i < |xs|
  {
    if |xs| == 1 then 0
    else
      var b := LastMaxIndex(xs[..|xs| - 1]);
      if xs[|xs| - 1] >= xs[b] then |xs| - 1 else b
  }

  function SquaredDeviations(xs: seq<real>, mean: real): (r: seq<real>)
    ensures |r| == |xs|
  {
    seq(|xs|, k requires 0 <= k < |xs| => (xs[k] - mean) * (xs[k] - mean))
  }

  /** `summarize_results`; an empty list of runs makes the source index past
      the end. */
  function SummarizeResults(results: seq<GaResult>): (s: RunSummary)
    requires |results| > 0
    ensures s.best < |results|
  {
    var xs := BestFitnesses(results);
    var n := |xs| as real;
    var mean := Sum(xs) / n;
    RunSummary(mean, Sum(SquaredDeviations(xs, mean)) / n, MinOf(xs), MaxOf(xs), LastMaxIndex(xs))
  }

  lemma {:induction false} MinMaxFacts(xs: seq<real>)
    requires |xs| > 0
    ensures forall k :: 0 <= k < |xs| ==> MinOf(xs) <= xs[k] <= MaxOf(xs)
    ensures exists k :: 0 <= k < |xs| && xs[k] == MinOf(xs)
    ensures xs[LastMaxIndex(xs)] == MaxOf(xs)
    ensures forall k :: LastMaxIndex(xs) < k < |xs| ==> xs[k] < MaxOf(xs)
  {
    if |xs| > 1 {
      var init := xs[..|xs| - 1];
      MinMaxFacts(init);
      var k :| 0 <= k < |init| && init[k] == MinOf(init);
      if xs[|xs| - 1] < MinOf(init) {
        assert xs[|xs| - 1] == MinOf(xs);
      } else {
        assert xs[k] == init[k] == MinOf(xs);
      }
    } else {
      assert xs[0] == MinOf(xs);
    }
  }

  lemma {:induction false} SumBounds(xs: seq<real>, lo: real, hi: real)
    requires forall k :: 0 <= k < |xs| ==> lo <= xs[k] <= hi
    ensures |xs| as real * lo <= Sum(xs) <= |xs| as real * hi
  {
    if |xs| > 0 {
      var init := xs[..|xs| - 1];
      SumBounds(init, lo, hi);
      assert |xs| as real * lo == |init| as real * lo + lo;
      assert |xs| as real * hi == |init| as real * hi + hi;
    }
  }

  lemma {:induction false} SumNonNegative(xs: seq<real>)
    requires forall k :: 0 <= k < |xs| ==> xs[k] >= 0.0
    ensures Sum(xs) >= 0.0
  {
    if |xs| > 0 {
      SumNonNegative(xs[..|xs| - 1]);
    }
  }

  lemma Square(x: real)
    ensures x * x >= 0.0
  {
  }

  /** The summary's minimum and maximum bound every run and are attained, and
      the best run is the last with the maximum fitness. */
  lemma SummaryRange(results: seq<GaResult>)
    requires |results| > 0
    ensures forall k :: 0 <= k < |results| ==>
              SummarizeResults(results).min <= results[k].bestFitness <= SummarizeResults(results).max
    ensures exists k :: 0 <= k < |results| && results[k].bestFitness == SummarizeResults(results).min
    ensures results[SummarizeResults(results).best].bestFitness == SummarizeResults(results).max
    ensures forall k :: SummarizeResults(results).best < k < |results| ==>
              results[k].bestFitness < SummarizeResults(results).max
  {
    MinMaxFacts(BestFitnesses(results));
  }

  /** The mean lies between the minimum and the maximum. */
  lemma SummaryMean(results: seq<GaResult>)
    requires |results| > 0
    ensures SummarizeResults(results).min <= SummarizeResults(results).mean <= SummarizeResults(results).max
  {
    var xs := BestFitnesses(results);
    MinMaxFacts(xs);
    MeanBetween(xs, MinOf(xs), MaxOf(xs));
  }

  lemma MeanBetween(xs: seq<real>, lo: real, hi: real)
    requires |xs| > 0 && forall k :: 0 <= k < |xs| ==> lo <= xs[k] <= hi
    ensures lo <= Sum(xs) / |xs| as real <= hi
  {
    SumBounds(xs, lo, hi);
  }

  /** The variance is not negative. */
  lemma SummaryVariance(results: seq<GaResult>)
    requires |results| > 0
    ensures SummarizeResults(results).variance >= 0.0
  {
    var xs := BestFitnesses(results);
    var mean := Sum(xs) / |xs| as real;
    var sq := SquaredDeviations(xs, mean);
    forall k | 0 <= k < |sq| ensures sq[k] >= 0.0 {
      Square(xs[k] - mean);
    }
    SumNonNegative(sq);
  }
}
