/** The three scores that compare a layout with fixed references, each a scan
    over the cells of the ten main columns of every row: Colemak similarity
    (is each kana's romaji consonant and vowel where Colemak has that letter?),
    Tsuki similarity (is each kana where the Tsuki 2-263 layout has it?), and
    memorability (do the shifted layers keep vowels over vowels?). */
module Similarity {
  import opened Common
  import opened Layouts
  import opened Totals
  import opened References

  /** `100 * num / den`, or 0 when the denominator is 0. */
  function Percent(num: real, den: real): (r: real)
    ensures den <= 0.0 ==> r == 0.0
  {
    if den > 0.0 then 100.0 * num / den else 0.0
  }

  /** A part of a whole is between 0% and 100%, and 100% exactly when it is the
      whole of something. */
  lemma PercentBounds(num: real, den: real)
    requires 0.0 <= num <= den
    ensures 0.0 <= Percent(num, den) <= 100.0
    ensures Percent(num, den) == 100.0 <==> den > 0.0 && num == den
  {
    if den > 0.0 {
      var q := num / den;
      assert num == q * den;
      if q > 1.0 {
        assert q * den > 1.0 * den;
      }
      if q == 1.0 {
        assert num == den;
      }
    }
  }

  /** The symbols the reference scans pass over: the shift keys, the two
      punctuation marks, the two voicing marks, the blank and NUL. */
  predicate ComparisonSkipped(s: Symbol)
  {
    s == "☆" || s == "★" || s == "、" || s == "。" || s == BLANK || s == "\0" || s == "゛" || s == "゜"
  }

  /** The romaji phonemes of a cell, read from its first character. */
  function SymbolPhonemes(s: Symbol): (Option<Phoneme>, Option<Phoneme>)
  {
    if |s| > 0 then RomajiPhonemes(s[0]) else (None, None)
  }

  // ---------------------------------------------------------------------------
  // Colemak similarity
  // ---------------------------------------------------------------------------

  /** Layer 0 counts fully, the shifted layers 0.3. */
  function ColemakLayerWeight(layer: nat): real
  {
    if layer == 0 then 1.0 else 0.3
  }

  /** One phoneme of a kana at (row, col): a full point at the letter's Colemak
      key, half a point on its row, a quarter on its hand, else nothing. */
  function PhonemeScore(table: map<Phoneme, (nat, nat)>, ph: Option<Phoneme>, row: nat, col: nat, weight: real): real
  {
    if ph.Some? && ph.value in table then
      var (expRow, expCol) := table[ph.value];
      if row == expRow && col == expCol then 1.0 * weight
      else if row == expRow then 0.5 * weight
      else if (col < 5 && expCol < 5) || (col >= 5 && expCol >= 5) then 0.25 * weight
      else 0.0
    else 0.0
  }

  /** The phoneme sits exactly at its Colemak key, or there is no phoneme. */
  predicate PhonemeExact(table: map<Phoneme, (nat, nat)>, ph: Option<Phoneme>, row: nat, col: nat)
  {
    ph.None? || (ph.value in table && table[ph.value] == (row, col))
  }

  /** What a symbol could score at most: one point per phoneme. */
  function SymbolMax(s: Symbol, weight: real): real
  {
    match SymbolPhonemes(s)
    case (Some(_), Some(_)) => 2.0 * weight
    case (None, None) => 0.0
    case _ => 1.0 * weight
  }

  function ColemakCellMax(cells: seq<Symbol>, i: nat): real
    requires |cells| == NUM_CELLS && i < NUM_CELLS
  {
    var p := PosAt(i);
    if p.col >= COLS || ComparisonSkipped(cells[i]) then 0.0
    else SymbolMax(cells[i], ColemakLayerWeight(p.layer))
  }

  function ColemakCellScore(cells: seq<Symbol>, table: map<Phoneme, (nat, nat)>, i: nat): real
    requires |cells| == NUM_CELLS && i < NUM_CELLS
  {
    var p := PosAt(i);
    var w := ColemakLayerWeight(p.layer);
    if p.col >= COLS || ComparisonSkipped(cells[i]) || SymbolMax(cells[i], w) == 0.0 then 0.0
    else
      var (cons, vowel) := SymbolPhonemes(cells[i]);
      PhonemeScore(table, cons, p.row, p.col, w) + PhonemeScore(table, vowel, p.row, p.col, w)
  }

  function ColemakMaxima(cells: seq<Symbol>): nat -> real
    requires |cells| == NUM_CELLS
  {
    (i: nat) => if i < NUM_CELLS then ColemakCellMax(cells, i) else 0.0
  }

  function ColemakScores(cells: seq<Symbol>, table: map<Phoneme, (nat, nat)>): nat -> real
    requires |cells| == NUM_CELLS
  {
    (i: nat) => if i < NUM_CELLS then ColemakCellScore(cells, table, i) else 0.0
  }

  /** A cell never scores more than its maximum, and reaches it exactly when
      each of its phonemes is at its Colemak key. */
  lemma ColemakCellFacts(cells: seq<Symbol>, table: map<Phoneme, (nat, nat)>, i: nat)
    requires |cells| == NUM_CELLS && i < NUM_CELLS
    ensures 0.0 <= ColemakCellScore(cells, table, i) <= ColemakCellMax(cells, i)
    ensures ColemakCellMax(cells, i) > 0.0 ==>
              (ColemakCellScore(cells, table, i) == ColemakCellMax(cells, i) <==>
                 PhonemeExact(table, SymbolPhonemes(cells[i]).0, PosAt(i).row, PosAt(i).col)
                 && PhonemeExact(table, SymbolPhonemes(cells[i]).1, PosAt(i).row, PosAt(i).col))
  {
    var p := PosAt(i);
    var w := ColemakLayerWeight(p.layer);
    var (cons, vowel) := SymbolPhonemes(cells[i]);
    PhonemeScoreFacts(table, cons, p.row, p.col, w);
    PhonemeScoreFacts(table, vowel, p.row, p.col, w);
  }

  lemma PhonemeScoreFacts(table: map<Phoneme, (nat, nat)>, ph: Option<Phoneme>, row: nat, col: nat, weight: real)
    requires weight > 0.0
    ensures ph.None? ==> PhonemeScore(table, ph, row, col, weight) == 0.0
    ensures ph.Some? ==> 0.0 <= PhonemeScore(table, ph, row, col, weight) <= weight
    ensures ph.Some? ==> (PhonemeScore(table, ph, row, col, weight) == weight <==> PhonemeExact(table, ph, row, col))
  {
  }

  /** `calc_colemak_similarity`: the score is the percentage of the cells'
      maxima that their phonemes earn against the Colemak table. */
  method CalcColemakSimilarity(cells: seq<Symbol>) returns (r: real)
    requires |cells| == NUM_CELLS
    ensures r == Percent(SumBelow(NUM_CELLS, ColemakScores(cells, ColemakTable())), SumBelow(NUM_CELLS, ColemakMaxima(cells)))
    ensures 0.0 <= r <= 100.0
  {
    var table := BuildPhonemePositions();
    r := ColemakScan(cells, table);
  }

  /** The scan of `calc_colemak_similarity` against a phoneme table. */
  method ColemakScan(cells: seq<Symbol>, table: map<Phoneme, (nat, nat)>) returns (r: real)
    requires |cells| == NUM_CELLS
    ensures r == Percent(SumBelow(NUM_CELLS, ColemakScores(cells, table)), SumBelow(NUM_CELLS, ColemakMaxima(cells)))
    ensures 0.0 <= r <= 100.0
  {
    var total := 0.0;
    var maxScore := 0.0;
    for i := 0 to NUM_CELLS
      invariant total == SumBelow(i, ColemakScores(cells, table))
      invariant maxScore == SumBelow(i, ColemakMaxima(cells))
    {
      ColemakStep(cells, table, i);
      var p := PosAt(i);
      if p.col < COLS {
        var c := cells[i];
        if !ComparisonSkipped(c) {
          var w := ColemakLayerWeight(p.layer);
          var (cons, vowel) := SymbolPhonemes(c);
          var charMax := match (cons, vowel)
            case (Some(_), Some(_)) => 2.0 * w
            case (None, None) => 0.0
            case _ => 1.0 * w;
          maxScore := maxScore + charMax;
          if charMax != 0.0 {
            total := total + PhonemeScore(table, cons, p.row, p.col, w);
            total := total + PhonemeScore(table, vowel, p.row, p.col, w);
          }
        }
      }
    }
    r := Percent(total, maxScore);
    ColemakBounds(cells, table);
  }

  /** One more cell adds its own score and maximum. */
  lemma ColemakStep(cells: seq<Symbol>, table: map<Phoneme, (nat, nat)>, i: nat)
    requires |cells| == NUM_CELLS && i < NUM_CELLS
    ensures SumBelow(i + 1, ColemakScores(cells, table)) == SumBelow(i, ColemakScores(cells, table)) + ColemakCellScore(cells, table, i)
    ensures SumBelow(i + 1, ColemakMaxima(cells)) == SumBelow(i, ColemakMaxima(cells)) + ColemakCellMax(cells, i)
  {
  }

  lemma ColemakBounds(cells: seq<Symbol>, table: map<Phoneme, (nat, nat)>)
    requires |cells| == NUM_CELLS
    ensures 0.0 <= SumBelow(NUM_CELLS, ColemakScores(cells, table)) <= SumBelow(NUM_CELLS, ColemakMaxima(cells))
    ensures 0.0 <= Percent(SumBelow(NUM_CELLS, ColemakScores(cells, table)), SumBelow(NUM_CELLS, ColemakMaxima(cells))) <= 100.0
  {
    forall i | 0 <= i < NUM_CELLS
      ensures 0.0 <= ColemakScores(cells, table)(i) <= ColemakMaxima(cells)(i)
    {
      ColemakCellFacts(cells, table, i);
    }
    SumBelowNonNegative(NUM_CELLS, ColemakScores(cells, table));
    SumBelowMono(NUM_CELLS, ColemakScores(cells, table), ColemakMaxima(cells));
    PercentBounds(SumBelow(NUM_CELLS, ColemakScores(cells, table)), SumBelow(NUM_CELLS, ColemakMaxima(cells)));
  }

  /** Every phoneme of the cell at `i` sits at its Colemak key. */
  predicate CellPerfect(cells: seq<Symbol>, table: map<Phoneme, (nat, nat)>, i: nat)
    requires |cells| == NUM_CELLS && i < NUM_CELLS
  {
    PhonemeExact(table, SymbolPhonemes(cells[i]).0, PosAt(i).row, PosAt(i).col)
    && PhonemeExact(table, SymbolPhonemes(cells[i]).1, PosAt(i).row, PosAt(i).col)
  }

  /** The similarity is 100 exactly when some cell has phonemes and every cell
      with phonemes has each of them at its Colemak key. */
  lemma ColemakPerfect(cells: seq<Symbol>, table: map<Phoneme, (nat, nat)>)
    requires |cells| == NUM_CELLS
    ensures Percent(SumBelow(NUM_CELLS, ColemakScores(cells, table)), SumBelow(NUM_CELLS, ColemakMaxima(cells))) == 100.0
            <==> SumBelow(NUM_CELLS, ColemakMaxima(cells)) > 0.0 && AllCellsPerfect(cells, table)
  {
    ColemakBounds(cells, table);
    PercentBounds(SumBelow(NUM_CELLS, ColemakScores(cells, table)), SumBelow(NUM_CELLS, ColemakMaxima(cells)));
    if SumBelow(NUM_CELLS, ColemakScores(cells, table)) == SumBelow(NUM_CELLS, ColemakMaxima(cells)) {
      FullScorePerfect(cells, table);
    }
    if AllCellsPerfect(cells, table) {
      PerfectFullScore(cells, table);
    }
  }

  /** Every cell with phonemes has each of them at its Colemak key. */
  predicate AllCellsPerfect(cells: seq<Symbol>, table: map<Phoneme, (nat, nat)>)
    requires |cells| == NUM_CELLS
  {
    forall i :: 0 <= i < NUM_CELLS && ColemakCellMax(cells, i) > 0.0 ==> CellPerfect(cells, table, i)
  }

  lemma FullScorePerfect(cells: seq<Symbol>, table: map<Phoneme, (nat, nat)>)
    requires |cells| == NUM_CELLS
    requires SumBelow(NUM_CELLS, ColemakScores(cells, table)) == SumBelow(NUM_CELLS, ColemakMaxima(cells))
    ensures AllCellsPerfect(cells, table)
  {
    var score := ColemakScores(cells, table);
    var most := ColemakMaxima(cells);
    forall i | 0 <= i < NUM_CELLS
      ensures score(i) <= most(i)
    {
      ColemakCellFacts(cells, table, i);
    }
    SumBelowEqual(NUM_CELLS, score, most);
    forall i | 0 <= i < NUM_CELLS && ColemakCellMax(cells, i) > 0.0
      ensures CellPerfect(cells, table, i)
    {
      assert score(i) == most(i);
      ColemakCellFacts(cells, table, i);
    }
  }

  lemma PerfectFullScore(cells: seq<Symbol>, table: map<Phoneme, (nat, nat)>)
    requires |cells| == NUM_CELLS && AllCellsPerfect(cells, table)
    ensures SumBelow(NUM_CELLS, ColemakScores(cells, table)) == SumBelow(NUM_CELLS, ColemakMaxima(cells))
  {
    var score := ColemakScores(cells, table);
    var most := ColemakMaxima(cells);
    forall i | 0 <= i < NUM_CELLS
      ensures score(i) == most(i)
    {
      ColemakCellFacts(cells, table, i);
    }
    SumBelowCongruent(NUM_CELLS, score, most);
  }

  // ---------------------------------------------------------------------------
  // Tsuki similarity
  // ---------------------------------------------------------------------------

  /** The Tsuki face a GA layer is compared with: the front face for layer 0,
      the back face for the shifted layers. */
  function ExpectedTsukiLayer(layer: nat): nat
  {
    if layer == 0 then 0 else 1
  }

  /** The cell at `i` takes part in the comparison: its first character is on
      the expected Tsuki face. */
  predicate TsukiCompared(cells: seq<Symbol>, tsuki: map<char, KeyPos>, i: nat)
    requires |cells| == NUM_CELLS && i < NUM_CELLS
  {
    var p := PosAt(i);
    p.col < COLS && !ComparisonSkipped(cells[i]) && |cells[i]| > 0
    && cells[i][0] in tsuki && tsuki[cells[i][0]].layer == ExpectedTsukiLayer(p.layer)
  }

  /** ... and sits on the same row and column as on that face. */
  predicate TsukiMatches(cells: seq<Symbol>, tsuki: map<char, KeyPos>, i: nat)
    requires |cells| == NUM_CELLS && i < NUM_CELLS
  {
    TsukiCompared(cells, tsuki, i)
    && tsuki[cells[i][0]].row == PosAt(i).row && tsuki[cells[i][0]].col == PosAt(i).col
  }

  function TsukiTotals(cells: seq<Symbol>, tsuki: map<char, KeyPos>): nat -> nat
    requires |cells| == NUM_CELLS
  {
    (i: nat) => if i < NUM_CELLS && TsukiCompared(cells, tsuki, i) then 1 else 0
  }

  function TsukiMatchCounts(cells: seq<Symbol>, tsuki: map<char, KeyPos>): nat -> nat
    requires |cells| == NUM_CELLS
  {
    (i: nat) => if i < NUM_CELLS && TsukiMatches(cells, tsuki, i) then 1 else 0
  }

  /** The scan of `calc_tsuki_similarity`: the percentage of compared cells that
      match, each count being over the cells the predicates pick out. */
  method CalcTsukiSimilarity(cells: seq<Symbol>, tsuki: map<char, KeyPos>) returns (r: real)
    requires |cells| == NUM_CELLS
    ensures r == Percent(CountBelow(NUM_CELLS, TsukiMatchCounts(cells, tsuki)) as real,
                         CountBelow(NUM_CELLS, TsukiTotals(cells, tsuki)) as real)
    ensures 0.0 <= r <= 100.0
  {
    var matches: nat := 0;
    var total: nat := 0;
    for i := 0 to NUM_CELLS
      invariant matches == CountBelow(i, TsukiMatchCounts(cells, tsuki))
      invariant total == CountBelow(i, TsukiTotals(cells, tsuki))
    {
      TsukiStep(cells, tsuki, i);
      var p := PosAt(i);
      if p.col < COLS {
        var c := cells[i];
        if !ComparisonSkipped(c) && |c| > 0 {
          if c[0] in tsuki {
            var tsukiPos := tsuki[c[0]];
            if tsukiPos.layer == ExpectedTsukiLayer(p.layer) {
              total := total + 1;
              if p.row == tsukiPos.row && p.col == tsukiPos.col {
                matches := matches + 1;
              }
            }
          }
        }
      }
    }
    r := if total > 0 then 100.0 * matches as real / total as real else 0.0;
    TsukiBounds(cells, tsuki);
  }

  /** One more cell adds its own counts. */
  lemma TsukiStep(cells: seq<Symbol>, tsuki: map<char, KeyPos>, i: nat)
    requires |cells| == NUM_CELLS && i < NUM_CELLS
    ensures CountBelow(i + 1, TsukiMatchCounts(cells, tsuki)) ==
            CountBelow(i, TsukiMatchCounts(cells, tsuki)) + if TsukiMatches(cells, tsuki, i) then 1 else 0
    ensures CountBelow(i + 1, TsukiTotals(cells, tsuki)) ==
            CountBelow(i, TsukiTotals(cells, tsuki)) + if TsukiCompared(cells, tsuki, i) then 1 else 0
  {
  }

  /** Matches are among the compared cells, so the score is a percentage. */
  lemma TsukiBounds(cells: seq<Symbol>, tsuki: map<char, KeyPos>)
    requires |cells| == NUM_CELLS
    ensures CountBelow(NUM_CELLS, TsukiMatchCounts(cells, tsuki)) <= CountBelow(NUM_CELLS, TsukiTotals(cells, tsuki))
    ensures 0.0 <= Percent(CountBelow(NUM_CELLS, TsukiMatchCounts(cells, tsuki)) as real,
                           CountBelow(NUM_CELLS, TsukiTotals(cells, tsuki)) as real) <= 100.0
  {
    CountBelowMono(NUM_CELLS, TsukiMatchCounts(cells, tsuki), TsukiTotals(cells, tsuki));
    PercentBounds(CountBelow(NUM_CELLS, TsukiMatchCounts(cells, tsuki)) as real,
                  CountBelow(NUM_CELLS, TsukiTotals(cells, tsuki)) as real);
  }

  /** A cell of GA layer 0 is only compared with a front-face character and a
      cell of a shifted layer only with a back-face one. */
  lemma TsukiComparedFaces(cells: seq<Symbol>, tsuki: map<char, KeyPos>, i: nat)
    requires |cells| == NUM_CELLS && i < NUM_CELLS && TsukiCompared(cells, tsuki, i)
    ensures PosAt(i).layer == 0 ==> tsuki[cells[i][0]].layer == 0
    ensures PosAt(i).layer > 0 ==> tsuki[cells[i][0]].layer == 1
  {
  }

  // ---------------------------------------------------------------------------
  // Memorability
  // ---------------------------------------------------------------------------

  /** The vowel kana, large and small. */
  predicate IsVowelKana(s: Symbol)
  {
    s in {"あ", "い", "う", "え", "お", "ぁ", "ぃ", "ぅ", "ぇ", "ぉ"}
  }

  /** A cell holding nothing to remember: the blank or NUL. */
  predicate Unfilled(s: Symbol)
  {
    s == BLANK || s == "\0"
  }

  /** The layer-0 key `k` (an offset inside a layer) is a base of comparison:
      one of the ten main columns, not fixed and not empty. */
  predicate MemoBase(cells: seq<Symbol>, k: nat)
    requires |cells| == NUM_CELLS && k < KEYS_PER_LAYER
  {
    PosAt(k).col < COLS && !FixedAt(k) && !Unfilled(cells[k])
  }

  /** The same key of shifted layer `layer` is compared with the base. */
  predicate MemoChecked(cells: seq<Symbol>, k: nat, layer: nat)
    requires |cells| == NUM_CELLS && k < KEYS_PER_LAYER && 1 <= layer < NUM_LAYERS
  {
    var i := layer * KEYS_PER_LAYER + k;
    !FixedAt(i) && !Unfilled(cells[i])
  }

  /** ... and is a vowel exactly when the base is. */
  predicate MemoConsistent(cells: seq<Symbol>, k: nat, layer: nat)
    requires |cells| == NUM_CELLS && k < KEYS_PER_LAYER && 1 <= layer < NUM_LAYERS
  {
    MemoChecked(cells, k, layer) && (IsVowelKana(cells[k]) == IsVowelKana(cells[layer * KEYS_PER_LAYER + k]))
  }

  /** The shifted layers 1 .. n-1 compared with key `k`, and those consistent. */
  function CheckedUpTo(cells: seq<Symbol>, k: nat, n: nat): (c: nat)
    requires |cells| == NUM_CELLS && k < KEYS_PER_LAYER && n <= NUM_LAYERS
    ensures c < n || c == 0
  {
    if n <= 1 then 0 else CheckedUpTo(cells, k, n - 1) + (if MemoChecked(cells, k, n - 1) then 1 else 0)
  }

  function ConsistentUpTo(cells: seq<Symbol>, k: nat, n: nat): (c: nat)
    requires |cells| == NUM_CELLS && k < KEYS_PER_LAYER && n <= NUM_LAYERS
    ensures c <= CheckedUpTo(cells, k, n)
  {
    if n <= 1 then 0 else ConsistentUpTo(cells, k, n - 1) + (if MemoConsistent(cells, k, n - 1) then 1 else 0)
  }

  function MemoTotals(cells: seq<Symbol>): nat -> nat
    requires |cells| == NUM_CELLS
  {
    (k: nat) => if k < KEYS_PER_LAYER && MemoBase(cells, k) then CheckedUpTo(cells, k, NUM_LAYERS) else 0
  }

  function MemoConsistentCounts(cells: seq<Symbol>): nat -> nat
    requires |cells| == NUM_CELLS
  {
    (k: nat) => if k < KEYS_PER_LAYER && MemoBase(cells, k) then ConsistentUpTo(cells, k, NUM_LAYERS) else 0
  }

  /** The scan of `calc_memorability`: the percentage of (key, shifted layer)
      pairs whose vowel-ness agrees with the key's layer-0 symbol. */
  method CalcMemorability(cells: seq<Symbol>) returns (r: real)
    requires |cells| == NUM_CELLS
    ensures r == Percent(CountBelow(KEYS_PER_LAYER, MemoConsistentCounts(cells)) as real,
                         CountBelow(KEYS_PER_LAYER, MemoTotals(cells)) as real)
    ensures 0.0 <= r <= 100.0
  {
    var consistentPositions: nat := 0;
    var totalPositions: nat := 0;
    for k := 0 to KEYS_PER_LAYER
      invariant consistentPositions == CountBelow(k, MemoConsistentCounts(cells))
      invariant totalPositions == CountBelow(k, MemoTotals(cells))
    {
      assert CountBelow(k + 1, MemoTotals(cells)) == CountBelow(k, MemoTotals(cells)) + MemoTotals(cells)(k);
      assert CountBelow(k + 1, MemoConsistentCounts(cells)) == CountBelow(k, MemoConsistentCounts(cells)) + MemoConsistentCounts(cells)(k);
      if PosAt(k).col < COLS && !FixedAt(k) {
        var c0 := cells[k];
        if !Unfilled(c0) {
          var layerChecked, layerConsistent := CompareShiftedLayers(cells, k);
          if layerChecked > 0 {
            totalPositions := totalPositions + layerChecked;
            consistentPositions := consistentPositions + layerConsistent;
          }
        }
      }
    }
    r := Percent(consistentPositions as real, totalPositions as real);
    MemoBounds(cells);
  }

  /** The inner loop of `calc_memorability`: the shifted layers' cells at key
      `k` that are compared with its layer-0 symbol, and those that agree. */
  method CompareShiftedLayers(cells: seq<Symbol>, k: nat) returns (checked: nat, consistent: nat)
    requires |cells| == NUM_CELLS && k < KEYS_PER_LAYER
    ensures checked == CheckedUpTo(cells, k, NUM_LAYERS)
    ensures consistent == ConsistentUpTo(cells, k, NUM_LAYERS)
  {
    var isVowel0 := IsVowelKana(cells[k]);
    checked := 0;
    consistent := 0;
    for layer := 1 to NUM_LAYERS
      invariant checked == CheckedUpTo(cells, k, layer)
      invariant consistent == ConsistentUpTo(cells, k, layer)
    {
      var i := layer * KEYS_PER_LAYER + k;
      if !FixedAt(i) {
        var c := cells[i];
        if !Unfilled(c) {
          checked := checked + 1;
          if isVowel0 == IsVowelKana(c) {
            consistent := consistent + 1;
          }
        }
      }
    }
  }

  /** Consistent pairs are among the compared ones, so the score is a
      percentage; every key compares at most the three shifted layers. */
  lemma MemoBounds(cells: seq<Symbol>)
    requires |cells| == NUM_CELLS
    ensures CountBelow(KEYS_PER_LAYER, MemoConsistentCounts(cells)) <= CountBelow(KEYS_PER_LAYER, MemoTotals(cells))
    ensures CountBelow(KEYS_PER_LAYER, MemoTotals(cells)) <= 3 * KEYS_PER_LAYER
    ensures 0.0 <= Percent(CountBelow(KEYS_PER_LAYER, MemoConsistentCounts(cells)) as real,
                           CountBelow(KEYS_PER_LAYER, MemoTotals(cells)) as real) <= 100.0
  {
    CountBelowMono(KEYS_PER_LAYER, MemoConsistentCounts(cells), MemoTotals(cells));
    forall k | 0 <= k < KEYS_PER_LAYER ensures MemoTotals(cells)(k) <= 3 {
    }
    CountBelowBounded(KEYS_PER_LAYER, MemoTotals(cells), 3);
    PercentBounds(CountBelow(KEYS_PER_LAYER, MemoConsistentCounts(cells)) as real,
                  CountBelow(KEYS_PER_LAYER, MemoTotals(cells)) as real);
  }
}
