/** The state behind the progress display: the snapshot the optimiser updates
    after every generation (and, in multi-run mode, after every run's
    generation), the keys that switch what is shown, and the two match counts
    the display's comparison panels show. Rendering is not modelled. */
module Tui {
  import opened Common
  import opened Layouts
  import opened References
  import opened Similarity
  import opened Export

  // ---------------------------------------------------------------------------
  // Best-so-far bookkeeping
  // ---------------------------------------------------------------------------

  function Max(a: real, b: real): real
  {
    if a >= b then a else b
  }

  /** A fitness and the layout that reached it, if any. */
  datatype Best = Best(fitness: real, layout: Option<Layout>)

  /** The best after offering `fitness`: replaced only on strict improvement. */
  function Improve(best: Best, fitness: real, layout: Layout): (r: Best)
    ensures r.fitness == Max(best.fitness, fitness)
    ensures r.fitness >= best.fitness && r.fitness >= fitness
    ensures r.layout == (if fitness > best.fitness then Some(layout) else best.layout)
  {
    if fitness > best.fitness then Best(fitness, Some(layout)) else best
  }

  /** Offering the values one after another keeps their maximum: the order in
      which two fitness values arrive does not change the best fitness. */
  lemma ImproveCommutes(best: Best, f1: real, l1: Layout, f2: real, l2: Layout)
    ensures Improve(Improve(best, f1, l1), f2, l2).fitness == Improve(Improve(best, f2, l2), f1, l1).fitness
  {
  }

  /** Offering a value no better than the best changes nothing. */
  lemma ImproveIdle(best: Best, fitness: real, layout: Layout)
    requires fitness <= best.fitness
    ensures Improve(best, fitness, layout) == best
  {
  }

  /** One run's slot in multi-run mode: its id, best fitness and best layout. */
  datatype RunState = RunState(runId: nat, fitness: real, layout: Option<Layout>)

  /** The slots `enable_multi_run` creates: at most four, each empty. */
  function FreshRunStates(totalRuns: nat): (states: seq<RunState>)
    ensures |states| == if totalRuns < 4 then totalRuns else 4
    ensures forall i :: 0 <= i < |states| ==> states[i] == RunState(i, 0.0, None)
  {
    var n := if totalRuns < 4 then totalRuns else 4;
    seq(n, i requires 0 <= i < n => RunState(i, 0.0, None))
  }

  /** Offering `fitness` to slot `runId`; an id without a slot changes nothing. */
  function OfferToRun(states: seq<RunState>, runId: nat, fitness: real, layout: Layout): (r: seq<RunState>)
    ensures |r| == |states|
    ensures forall i :: 0 <= i < |states| && i != runId ==> r[i] == states[i]
    ensures runId < |states| ==>
      r[runId].runId == states[runId].runId && Best(r[runId].fitness, r[runId].layout) == Improve(Best(states[runId].fitness, states[runId].layout), fitness, layout)
    ensures runId >= |states| ==> r == states
  {
    if runId < |states| && fitness > states[runId].fitness then
      states[runId := RunState(states[runId].runId, fitness, Some(layout))]
    else states
  }

  /** Per-run bests never decrease. */
  lemma OfferToRunMonotone(states: seq<RunState>, runId: nat, fitness: real, layout: Layout)
    ensures forall i :: 0 <= i < |states| ==> OfferToRun(states, runId, fitness, layout)[i].fitness >= states[i].fitness
  {
  }

  // ---------------------------------------------------------------------------
  // Keys and panels
  // ---------------------------------------------------------------------------

  /** The 'i' key: best (0) → second best (1) → initial (2) → best. */
  function NextViewMode(mode: nat): (next: nat)
    ensures next < 3
  {
    (mode + 1) % 3
  }

  lemma ViewModeCycle(mode: nat)
    requires mode < 3
    ensures NextViewMode(mode) != mode
    ensures NextViewMode(NextViewMode(NextViewMode(mode))) == mode
    ensures mode == 0 ==> NextViewMode(mode) == 1
    ensures mode == 1 ==> NextViewMode(mode) == 2
    ensures mode == 2 ==> NextViewMode(mode) == 0
  {
  }

  /** A digit key flips one panel flag. */
  function Toggled(visible: seq<bool>, panel: nat): (r: seq<bool>)
    requires panel < |visible|
    ensures |r| == |visible|
    ensures r[panel] == !visible[panel]
    ensures forall j :: 0 <= j < |visible| && j != panel ==> r[j] == visible[j]
  {
    visible[panel := !visible[panel]]
  }

  lemma ToggleTwice(visible: seq<bool>, panel: nat)
    requires panel < |visible|
    ensures Toggled(Toggled(visible, panel), panel) == visible
  {
  }

  /** The panel a key toggles: '1', '2' and '3' toggle panels 0, 1 and 2. */
  function PanelOfKey(key: char): (panel: Option<nat>)
    ensures panel.Some? ==> panel.value < 3
    ensures panel.Some? <==> key == '1' || key == '2' || key == '3'
  {
    if key == '1' then Some(0) else if key == '2' then Some(1) else if key == '3' then Some(2) else None
  }

  // ---------------------------------------------------------------------------
  // The display state
  // ---------------------------------------------------------------------------

  /** Every field of the state, as one value. */
  datatype Snapshot = Snapshot(
    generation: nat, maxGenerations: nat, best: Best, fitnessHistory: seq<real>,
    running: bool, debug: bool, multiRunStates: seq<RunState>, multiRunMode: bool,
    completedRuns: nat, totalRuns: nat, initialLayout: Layout, secondBest: Best,
    viewMode: nat, debugPanelVisible: seq<bool>)

  class TuiState {
    var generation: nat
    var maxGenerations: nat
    var best: Best
    var fitnessHistory: seq<real>
    var running: bool
    var debug: bool
    var multiRunStates: seq<RunState>
    var multiRunMode: bool
    var completedRuns: nat
    var totalRuns: nat
    var initialLayout: Layout
    var secondBest: Best
    var viewMode: nat
    var debugPanelVisible: seq<bool>

    function State(): Snapshot
      reads this
    {
      Snapshot(generation, maxGenerations, best, fitnessHistory,
        running, debug, multiRunStates, multiRunMode, completedRuns, totalRuns, initialLayout,
        secondBest, viewMode, debugPanelVisible)
    }

    /** The view mode is one of three, there are three panel flags and at most
        four run slots, numbered in order. A best layout is recorded only above
        the initial 0.0, and the global best is at least every recorded
        generation best and every run's best. */
    ghost predicate Valid()
      reads this
    {
      && viewMode < 3 && |debugPanelVisible| == 3 && |multiRunStates| <= 4
      && (forall i :: 0 <= i < |multiRunStates| ==> multiRunStates[i].runId == i)
      && (forall i :: 0 <= i < |multiRunStates| ==> multiRunStates[i].fitness <= best.fitness)
      && (forall i :: 0 <= i < |fitnessHistory| ==> fitnessHistory[i] <= best.fitness)
      && best.fitness >= 0.0 && (best.layout.Some? ==> best.fitness > 0.0)
      && secondBest.fitness >= 0.0 && (secondBest.layout.Some? ==> secondBest.fitness > 0.0)
    }

    /** `new_with_debug`: generation 0, best 0.0 and no layouts, running, the
        improved custom layout as the initial preview, every panel shown. */
    constructor NewWithDebug(maxGenerations: nat, debug: bool)
      ensures Valid()
      ensures State() == Snapshot(0, maxGenerations, Best(0.0, None), [], true, debug, [], false, 0, 0,
        ImprovedCustom(), Best(0.0, None), 0, [true, true, true])
    {
      generation := 0;
      this.maxGenerations := maxGenerations;
      best := Best(0.0, None);
      fitnessHistory := [];
      running := true;
      this.debug := debug;
      multiRunStates := [];
      multiRunMode := false;
      completedRuns := 0;
      totalRuns := 0;
      initialLayout := ImprovedCustom();
      secondBest := Best(0.0, None);
      viewMode := 0;
      debugPanelVisible := [true, true, true];
    }

    /** `new`: the same without debug output. */
    constructor New(maxGenerations: nat)
      ensures Valid()
      ensures State() == Snapshot(0, maxGenerations, Best(0.0, None), [], true, false, [], false, 0, 0,
        ImprovedCustom(), Best(0.0, None), 0, [true, true, true])
    {
      generation := 0;
      this.maxGenerations := maxGenerations;
      best := Best(0.0, None);
      fitnessHistory := [];
      running := true;
      debug := false;
      multiRunStates := [];
      multiRunMode := false;
      completedRuns := 0;
      totalRuns := 0;
      initialLayout := ImprovedCustom();
      secondBest := Best(0.0, None);
      viewMode := 0;
      debugPanelVisible := [true, true, true];
    }

    /** `enable_multi_run`: multi-run mode with up to four fresh run slots. */
    method EnableMultiRun(totalRuns: nat)
      requires Valid()
      modifies this
      ensures Valid()
      ensures State() == old(State()).(multiRunMode := true, totalRuns := totalRuns, multiRunStates := FreshRunStates(totalRuns))
    {
      multiRunMode := true;
      this.totalRuns := totalRuns;
      multiRunStates := FreshRunStates(totalRuns);
    }

    /** `update_multi_run`: the run's slot (if it has one) and the global best
        are each replaced on strict improvement. */
    method UpdateMultiRun(runId: nat, fitness: real, layout: Layout)
      requires Valid()
      modifies this
      ensures Valid()
      ensures State() == old(State()).(
        multiRunStates := OfferToRun(old(multiRunStates), runId, fitness, layout),
        best := Improve(old(best), fitness, layout))
    {
      multiRunStates := OfferToRun(multiRunStates, runId, fitness, layout);
      best := Improve(best, fitness, layout);
    }

    /** `update`: records the generation, offers the generation's best and
        second best, and appends exactly one history entry. */
    method Update(generation: nat, fitness: real, layout: Layout, runnerUp: Option<(real, Layout)>)
      requires Valid()
      modifies this
      ensures Valid()
      ensures State() == old(State()).(
        generation := generation,
        best := Improve(old(best), fitness, layout),
        secondBest := if runnerUp.Some? then Improve(old(secondBest), runnerUp.value.0, runnerUp.value.1) else old(secondBest),
        fitnessHistory := old(fitnessHistory) + [fitness])
    {
      this.generation := generation;
      best := Improve(best, fitness, layout);
      if runnerUp.Some? {
        secondBest := Improve(secondBest, runnerUp.value.0, runnerUp.value.1);
      }
      fitnessHistory := fitnessHistory + [fitness];
    }

    /** One key of the display loop: 'q' stops it, 'i' switches the view, a
        digit flips its panel, any other key is ignored. */
    method HandleKey(key: char) returns (quit: bool)
      requires Valid()
      modifies this
      ensures Valid()
      ensures quit <==> key == 'q'
      ensures key == 'q' ==> State() == old(State()).(running := false)
      ensures key == 'i' ==> State() == old(State()).(viewMode := NextViewMode(old(viewMode)))
      ensures PanelOfKey(key).Some? ==> State() == old(State()).(debugPanelVisible := Toggled(old(debugPanelVisible), PanelOfKey(key).value))
      ensures key != 'q' && key != 'i' && PanelOfKey(key).None? ==> State() == old(State())
    {
      quit := false;
      if key == 'q' {
        running := false;
        quit := true;
      } else if key == 'i' {
        viewMode := (viewMode + 1) % 3;
      } else if PanelOfKey(key).Some? {
        debugPanelVisible := Toggled(debugPanelVisible, PanelOfKey(key).value);
      }
    }
  }

  // ---------------------------------------------------------------------------
  // Colemak match detail
  // ---------------------------------------------------------------------------

  /** How a cell compares with Colemak: not counted, a perfect match, a partial
      match, or counted without a match. */
  datatype MatchKind = Skipped | Perfect | Partial | Miss

  /** First characters the Colemak detail does not count: placeholders, shift
      and punctuation keys, the long-vowel mark, small kana and voicing marks. */
  predicate ColemakExcluded(c: char)
  {
    match c
    case 'A' => true case 'B' => true case 'C' => true case 'D' => true
    case '☆' => true case '★' => true case '◎' => true case '◆' => true
    case '、' => true case '。' => true case '　' => true case 'ー' => true
    case 'っ' => true case 'ゃ' => true case 'ゅ' => true case 'ょ' => true
    case 'ぁ' => true case 'ぃ' => true case 'ぅ' => true case 'ぇ' => true
    case 'ぉ' => true case '゛' => true case '゜' => true
    case _ => false
  }

  /** The row and column of key `j` of a layer (0-9 row 0, 10-20 row 1, 21-30
      row 2). */
  function LayerRowCol(j: nat): (rc: (nat, nat))
    requires j < KEYS_PER_LAYER
    ensures rc.0 < ROWS && rc.1 < ColsForRow(rc.0) && RowStart(rc.0) + rc.1 == j
  {
    if j < COLS then (0, j) else if j < COLS + COLS_ROW1 then (1, j - COLS) else (2, j - COLS - COLS_ROW1)
  }

  /** The classification of one cell at (row, col): a kana with only a vowel
      or only a consonant is perfect at its letter's key and partial on the
      letter's row; a consonant-and-vowel kana is perfect when its two scores
      reach 1.8 and partial when either phoneme is at its key. */
  function CellMatch(table: map<Phoneme, (nat, nat)>, s: Symbol, row: nat, col: nat): MatchKind
  {
    if |s| == 0 || ColemakExcluded(s[0]) then Skipped
    else PhonemeMatch(table, SymbolPhonemes(s), row, col)
  }

  /** The comparison for a kana's consonant and vowel. */
  function PhonemeMatch(table: map<Phoneme, (nat, nat)>, phonemes: (Option<Phoneme>, Option<Phoneme>), row: nat, col: nat): MatchKind
  {
    var (cons, vowel) := phonemes;
    if cons.None? && vowel.None? then Skipped
    else
      var consScore := PhonemeScore(table, cons, row, col, 1.0);
      var vowelScore := PhonemeScore(table, vowel, row, col, 1.0);
      if cons.None? then (if vowelScore >= 1.0 then Perfect else if vowelScore >= 0.5 then Partial else Miss)
      else if vowel.None? then (if consScore >= 1.0 then Perfect else if consScore >= 0.5 then Partial else Miss)
      else if consScore + vowelScore >= 1.8 then Perfect
      else if consScore >= 1.0 || vowelScore >= 1.0 then Partial
      else Miss
  }

  /** A phoneme off its key scores at most half a point. */
  lemma PhonemeScoreSteps(table: map<Phoneme, (nat, nat)>, ph: Option<Phoneme>, row: nat, col: nat)
    ensures 0.0 <= PhonemeScore(table, ph, row, col, 1.0) <= 1.0
    ensures ph.Some? ==> (PhonemeScore(table, ph, row, col, 1.0) >= 1.0 <==> PhonemeExact(table, ph, row, col))
    ensures PhonemeScore(table, ph, row, col, 1.0) < 1.0 ==> PhonemeScore(table, ph, row, col, 1.0) <= 0.5
  {
  }

  /** A kana is skipped only when it has no phoneme; otherwise the 1.8
      threshold is met only when both phonemes are at their keys, and a
      single-phoneme kana is perfect exactly at its key. */
  lemma PhonemeMatchPerfect(table: map<Phoneme, (nat, nat)>, phonemes: (Option<Phoneme>, Option<Phoneme>), row: nat, col: nat)
    ensures PhonemeMatch(table, phonemes, row, col) == Skipped <==> phonemes.0.None? && phonemes.1.None?
    ensures (phonemes.0.Some? || phonemes.1.Some?) ==>
      (PhonemeMatch(table, phonemes, row, col) == Perfect <==>
        PhonemeExact(table, phonemes.0, row, col) && PhonemeExact(table, phonemes.1, row, col))
  {
    PhonemeScoreSteps(table, phonemes.0, row, col);
    PhonemeScoreSteps(table, phonemes.1, row, col);
  }

  /** A two-phoneme kana with neither phoneme at its key is never partial. */
  lemma PhonemeMatchPartial(table: map<Phoneme, (nat, nat)>, phonemes: (Option<Phoneme>, Option<Phoneme>), row: nat, col: nat)
    requires phonemes.0.Some? && phonemes.1.Some?
    ensures PhonemeMatch(table, phonemes, row, col) == Partial <==>
      PhonemeExact(table, phonemes.0, row, col) != PhonemeExact(table, phonemes.1, row, col)
  {
    PhonemeScoreSteps(table, phonemes.0, row, col);
    PhonemeScoreSteps(table, phonemes.1, row, col);
  }

  /** The classifications of the 31 keys of a layer, in scan order. */
  function LayerKinds(cells: seq<Symbol>, table: map<Phoneme, (nat, nat)>, layer: nat): (kinds: seq<MatchKind>)
    requires WellShaped(cells) && layer < NUM_LAYERS
    ensures |kinds| == KEYS_PER_LAYER
  {
    var slab := cells[layer * KEYS_PER_LAYER..layer * KEYS_PER_LAYER + KEYS_PER_LAYER];
    seq(KEYS_PER_LAYER, j requires 0 <= j < KEYS_PER_LAYER => CellMatch(table, slab[j], LayerRowCol(j).0, LayerRowCol(j).1))
  }

  /** Key j of a layer is classified from the cell at its position. */
  lemma LayerKindsAt(cells: seq<Symbol>, table: map<Phoneme, (nat, nat)>, p: KeyPos)
    requires WellShaped(cells) && p.Valid()
    ensures LayerKinds(cells, table, p.layer)[RowStart(p.row) + p.col] == CellMatch(table, CellAt(cells, p), p.row, p.col)
  {
    var j := RowStart(p.row) + p.col;
    var slab := cells[p.layer * KEYS_PER_LAYER..p.layer * KEYS_PER_LAYER + KEYS_PER_LAYER];
    assert slab[j] == CellAt(cells, p);
    assert LayerRowCol(j) == (p.row, p.col);
  }

  /** How many of the first `n` classifications are `kind`. */
  function KindCount(kinds: seq<MatchKind>, kind: MatchKind, n: nat): (c: nat)
    requires n <= |kinds|
    ensures c <= n
  {
    if n == 0 then 0 else KindCount(kinds, kind, n - 1) + (if kinds[n - 1] == kind then 1 else 0)
  }

  /** Perfect, partial and skipped cells are disjoint. */
  lemma {:induction false} KindCountsBound(kinds: seq<MatchKind>, n: nat)
    requires n <= |kinds|
    ensures KindCount(kinds, Perfect, n) + KindCount(kinds, Partial, n) + KindCount(kinds, Skipped, n) <= n
  {
    if n > 0 {
      KindCountsBound(kinds, n - 1);
    }
  }

  /** The classifications of all four layers. */
  function ColemakKinds(cells: seq<Symbol>, table: map<Phoneme, (nat, nat)>): (layers: seq<seq<MatchKind>>)
    requires WellShaped(cells)
    ensures |layers| == NUM_LAYERS
    ensures forall l :: 0 <= l < NUM_LAYERS ==> layers[l] == LayerKinds(cells, table, l)
  {
    [LayerKinds(cells, table, 0), LayerKinds(cells, table, 1), LayerKinds(cells, table, 2), LayerKinds(cells, table, 3)]
  }

  /** The number of `kind` classifications in the first `n` layers. */
  function LayersCount(layers: seq<seq<MatchKind>>, kind: MatchKind, n: nat): (c: nat)
    requires n <= |layers|
  {
    if n == 0 then 0 else LayersCount(layers, kind, n - 1) + KindCount(layers[n - 1], kind, |layers[n - 1]|)
  }

  /** Perfect, partial and skipped cells are disjoint in every prefix of layers. */
  lemma {:induction false} LayersCountsBound(layers: seq<seq<MatchKind>>, n: nat)
    requires n <= |layers| && forall l :: 0 <= l < |layers| ==> |layers[l]| == KEYS_PER_LAYER
    ensures LayersCount(layers, Perfect, n) + LayersCount(layers, Partial, n) + LayersCount(layers, Skipped, n)
      <= n * KEYS_PER_LAYER
  {
    if n > 0 {
      LayersCountsBound(layers, n - 1);
      KindCountsBound(layers[n - 1], |layers[n - 1]|);
    }
  }

  /** The counting in the inner loops of `calc_colemak_match_detail` over one
      layer's classified keys. */
  method TallyLayer(kinds: seq<MatchKind>, layer: nat, perfect: nat, partial: nat, total: nat, layerPerfect: seq<nat>)
    returns (perfect': nat, partial': nat, total': nat, layerPerfect': seq<nat>)
    requires layer < |layerPerfect|
    ensures perfect' == perfect + KindCount(kinds, Perfect, |kinds|)
    ensures partial' == partial + KindCount(kinds, Partial, |kinds|)
    ensures total' == total + (|kinds| - KindCount(kinds, Skipped, |kinds|))
    ensures layerPerfect' == layerPerfect[layer := layerPerfect[layer] + KindCount(kinds, Perfect, |kinds|)]
  {
    perfect', partial', total', layerPerfect' := perfect, partial, total, layerPerfect;
    var j := 0;
    while j < |kinds|
      invariant j <= |kinds|
      invariant perfect' == perfect + KindCount(kinds, Perfect, j)
      invariant partial' == partial + KindCount(kinds, Partial, j)
      invariant total' == total + (j - KindCount(kinds, Skipped, j))
      invariant layerPerfect' == layerPerfect[layer := layerPerfect[layer] + KindCount(kinds, Perfect, j)]
    {
      var kind := kinds[j];
      if kind != Skipped {
        total' := total' + 1;
        if kind == Perfect {
          perfect' := perfect' + 1;
          layerPerfect' := layerPerfect'[layer := layerPerfect'[layer] + 1];
        } else if kind == Partial {
          partial' := partial' + 1;
        }
      }
      j := j + 1;
    }
  }

  /** `calc_colemak_match_detail`: the perfect, partial and counted cells of
      all four layers, and the perfect cells per layer. */
  method CalcColemakMatchDetail(cells: seq<Symbol>) returns (perfect: nat, partial: nat, total: nat, layerPerfect: seq<nat>)
    requires WellShaped(cells)
    ensures var layers := ColemakKinds(cells, ColemakTable());
      && perfect == LayersCount(layers, Perfect, NUM_LAYERS)
      && partial == LayersCount(layers, Partial, NUM_LAYERS)
      && total == NUM_CELLS - LayersCount(layers, Skipped, NUM_LAYERS)
      && |layerPerfect| == NUM_LAYERS
      && forall l :: 0 <= l < NUM_LAYERS ==> layerPerfect[l] == KindCount(layers[l], Perfect, |layers[l]|)
    ensures perfect + partial <= total <= NUM_CELLS
    ensures layerPerfect[0] + layerPerfect[1] + layerPerfect[2] + layerPerfect[3] == perfect
  {
    var table := BuildPhonemePositions();
    var layers := ColemakKinds(cells, table);
    perfect, partial, total, layerPerfect := TallyLayers(layers);
  }

  /** The outer loop over the layers: perfect and partial matches are among
      the counted cells, and the per-layer counts add up to the perfect count. */
  method TallyLayers(layers: seq<seq<MatchKind>>) returns (perfect: nat, partial: nat, total: nat, layerPerfect: seq<nat>)
    requires |layers| == NUM_LAYERS && forall l :: 0 <= l < NUM_LAYERS ==> |layers[l]| == KEYS_PER_LAYER
    ensures perfect == LayersCount(layers, Perfect, NUM_LAYERS)
    ensures partial == LayersCount(layers, Partial, NUM_LAYERS)
    ensures total == NUM_CELLS - LayersCount(layers, Skipped, NUM_LAYERS)
    ensures |layerPerfect| == NUM_LAYERS
    ensures forall l :: 0 <= l < NUM_LAYERS ==> layerPerfect[l] == KindCount(layers[l], Perfect, |layers[l]|)
    ensures perfect + partial <= total <= NUM_CELLS
    ensures layerPerfect[0] + layerPerfect[1] + layerPerfect[2] + layerPerfect[3] == perfect
  {
    perfect, partial, total, layerPerfect := 0, 0, 0, [0, 0, 0, 0];
    for layer := 0 to NUM_LAYERS
      invariant |layerPerfect| == NUM_LAYERS
      invariant perfect == LayersCount(layers, Perfect, layer)
      invariant partial == LayersCount(layers, Partial, layer)
      invariant total + LayersCount(layers, Skipped, layer) == layer * KEYS_PER_LAYER
      invariant forall l :: 0 <= l < layer ==> layerPerfect[l] == KindCount(layers[l], Perfect, |layers[l]|)
      invariant forall l :: layer <= l < NUM_LAYERS ==> layerPerfect[l] == 0
    {
      perfect, partial, total, layerPerfect := TallyLayer(layers[layer], layer, perfect, partial, total, layerPerfect);
      assert (layer + 1) * KEYS_PER_LAYER == layer * KEYS_PER_LAYER + KEYS_PER_LAYER;
    }
    LayersCountsBound(layers, NUM_LAYERS);
    assert LayersCount(layers, Perfect, 1) == layerPerfect[0];
    assert LayersCount(layers, Perfect, 2) == layerPerfect[0] + layerPerfect[1];
    assert LayersCount(layers, Perfect, 3) == layerPerfect[0] + layerPerfect[1] + layerPerfect[2];
  }

  // ---------------------------------------------------------------------------
  // Tsuki match detail
  // ---------------------------------------------------------------------------

  /** First characters of a layout cell the Tsuki detail does not count. */
  predicate TsukiKanaExcluded(c: char)
  {
    match c
    case 'A' => true case 'B' => true case 'C' => true case 'D' => true
    case '★' => true case '☆' => true case '◎' => true case '◆' => true
    case '、' => true case '。' => true case '　' => true
    case _ => false
  }

  /** Tsuki keys the detail does not count: shift keys, punctuation, voicing
      marks and the blank. */
  predicate TsukiKeyExcluded(t: char)
  {
    t == '★' || t == '☆' || t == '、' || t == '。' || t == '゛' || t == '゜' || t == '　'
  }

  /** The Tsuki face GA layer `layer` is compared with: the front face for
      layer 0, the back face for layers 1-3. */
  function TsukiFace(layer: nat): (face: string)
    ensures |face| == SCAN
  {
    assert |TSUKI_FRONT| == 30 && |TSUKI_BACK| == 30;
    if layer == 0 then TSUKI_FRONT else TSUKI_BACK
  }

  predicate TsukiCounted(s: Symbol, t: char)
  {
    |s| > 0 && !TsukiKanaExcluded(s[0]) && !TsukiKeyExcluded(t)
  }

  /** (matched, total) over the first `n` keys of a scan against a face. */
  function TsukiTally(scan: seq<Symbol>, face: string, n: nat): (r: (nat, nat))
    requires n <= |scan| && n <= |face|
    ensures r.0 <= r.1 <= n
  {
    if n == 0 then (0, 0)
    else
      var prev := TsukiTally(scan, face, n - 1);
      if TsukiCounted(scan[n - 1], face[n - 1]) then
        (prev.0 + (if scan[n - 1][0] == face[n - 1] then 1 else 0), prev.1 + 1)
      else prev
  }

  /** A key counts as matched exactly when the layout has the Tsuki kana there:
      all counted keys match only when the whole scan agrees with the face. */
  lemma {:induction false} TsukiTallyAllMatched(scan: seq<Symbol>, face: string, n: nat)
    requires n <= |scan| && n <= |face|
    ensures TsukiTally(scan, face, n).0 == TsukiTally(scan, face, n).1 <==>
      forall k :: 0 <= k < n && TsukiCounted(scan[k], face[k]) ==> scan[k][0] == face[k]
  {
    if n > 0 {
      TsukiTallyAllMatched(scan, face, n - 1);
    }
  }

  /** (matched, total) for one GA layer against its Tsuki face. */
  function TsukiLayerTally(cells: seq<Symbol>, layer: nat): (r: (nat, nat))
    requires WellShaped(cells) && layer < NUM_LAYERS
    ensures r.0 <= r.1 <= SCAN
  {
    var scan := LayerScan(cells, layer);
    TsukiTally(scan, TsukiFace(layer), |scan|)
  }

  /** The loop over one layer's 30 scanned keys. */
  method TallyFace(scan: seq<Symbol>, face: string) returns (matched: nat, total: nat)
    requires |scan| <= |face|
    ensures (matched, total) == TsukiTally(scan, face, |scan|)
  {
    matched, total := 0, 0;
    var k := 0;
    while k < |scan|
      invariant k <= |scan| && (matched, total) == TsukiTally(scan, face, k)
    {
      var s := scan[k];
      if |s| > 0 {
        var kana := s[0];
        var tsukiChar := face[k];
        if !TsukiKanaExcluded(kana) && !TsukiKeyExcluded(tsukiChar) {
          total := total + 1;
          if kana == tsukiChar {
            matched := matched + 1;
          }
        }
      }
      k := k + 1;
    }
  }

  /** `calc_tsuki_match_detail`: per GA layer, (matched, total) against the
      front face for layer 0 and the back face for layers 1-3; at most the 30
      scanned keys are counted. */
  method CalcTsukiMatchDetail(cells: seq<Symbol>) returns (result: seq<(nat, nat)>)
    requires WellShaped(cells)
    ensures |result| == NUM_LAYERS
    ensures forall layer :: 0 <= layer < NUM_LAYERS ==> result[layer] == TsukiLayerTally(cells, layer)
    ensures forall layer :: 0 <= layer < NUM_LAYERS ==> result[layer].0 <= result[layer].1 <= SCAN
  {
    result := [(0, 0), (0, 0), (0, 0), (0, 0)];
    for layer := 0 to NUM_LAYERS
      invariant |result| == NUM_LAYERS
      invariant forall l :: 0 <= l < layer ==> result[l] == TsukiLayerTally(cells, l)
    {
      var matched, total := TallyFace(LayerScan(cells, layer), TsukiFace(layer));
      result := result[layer := (matched, total)];
    }
  }
}
