/** The keyboard grid: four layers (no shift, ☆ shift, ★ shift, ◆ shift) of three
    rows holding 10, 11 and 10 keys. A layout stores one symbol per key; the grid
    is kept flat, row-major, as 124 cells. */
module Layouts {
  import opened Common
  import opened Random

  const ROWS: nat := 3
  const COLS: nat := 10
  const COLS_ROW1: nat := 11
  const NUM_LAYERS: nat := 4
  const KEYS_PER_LAYER: nat := COLS + COLS_ROW1 + COLS
  /** KEYS_PER_LAYER × NUM_LAYERS, written out (see NumCellsIsProduct). */
  const NUM_CELLS: nat := 124

  lemma NumCellsIsProduct()
    ensures NUM_CELLS == KEYS_PER_LAYER * NUM_LAYERS
  {
  }

  /** Rows 0 and 2 have 10 keys; the home row has an eleventh key. */
  function ColsForRow(row: nat): nat
  {
    if row == 1 then COLS_ROW1 else COLS
  }

  // ---------------------------------------------------------------------------
  // Key positions
  // ---------------------------------------------------------------------------

  datatype KeyPos = KeyPos(layer: nat, row: nat, col: nat)
  {
    /** A key of the home row. */
    predicate IsHome()
    {
      row == 1
    }

    /** Columns 0-4 are typed by the left hand. */
    predicate IsLeftHand()
    {
      col < 5
    }

    /** 0 little, 1 ring, 2 middle, 3 index finger; the eleventh key counts as 0. */
    function Finger(): (f: nat)
      ensures f < 4
    {
      if col == 0 || col == 9 then 0
      else if col == 1 || col == 8 then 1
      else if col == 2 || col == 7 then 2
      else if 3 <= col <= 6 then 3
      else 0
    }

    /** The keystroke cost: a row factor times a column factor times a layer factor. */
    function Weight(): (w: real)
    {
      var rowWeight := if row == 1 then 1.0 else if row == 0 then 1.3 else if row == 2 then 1.2 else 2.0;
      var colWeight :=
        if 3 <= col <= 6 then 1.0
        else if col == 2 || col == 7 then 1.1
        else if col == 1 || col == 8 then 1.2
        else if col == 0 || col == 9 then 1.4
        else 1.5;
      var layerWeight :=
        if layer == 0 then 1.0 else if layer == 1 then 2.0 else if layer == 2 then 2.2 else 3.0;
      rowWeight * colWeight * layerWeight
    }

    predicate Valid()
    {
      layer < NUM_LAYERS && row < ROWS && col < ColsForRow(row)
    }
  }

  /** Mirror columns are typed by the same finger of the other hand. */
  lemma FingerMirror(p: KeyPos)
    requires p.col <= 9
    ensures p.Finger() == p.(col := 9 - p.col).Finger()
    ensures p.IsLeftHand() <==> !p.(col := 9 - p.col).IsLeftHand()
  {
  }

  /** The cheapest key costs 1 and is exactly an index-finger home key of layer 0;
      no key costs more than 2 × 1.5 × 3. */
  lemma WeightBounds(p: KeyPos)
    ensures 1.0 <= p.Weight() <= 9.0
    ensures p.Weight() == 1.0 <==> p.layer == 0 && p.row == 1 && 3 <= p.col <= 6
  {
    var rowWeight := if p.row == 1 then 1.0 else if p.row == 0 then 1.3 else if p.row == 2 then 1.2 else 2.0;
    var colWeight :=
      if 3 <= p.col <= 6 then 1.0
      else if p.col == 2 || p.col == 7 then 1.1
      else if p.col == 1 || p.col == 8 then 1.2
      else if p.col == 0 || p.col == 9 then 1.4
      else 1.5;
    var layerWeight :=
      if p.layer == 0 then 1.0 else if p.layer == 1 then 2.0 else if p.layer == 2 then 2.2 else 3.0;
    assert 1.0 <= rowWeight <= 2.0 && 1.0 <= colWeight <= 1.5 && 1.0 <= layerWeight <= 3.0;
    assert rowWeight * colWeight >= 1.0 && rowWeight * colWeight <= 3.0;
    assert rowWeight * colWeight * layerWeight == (rowWeight * colWeight) * layerWeight;
    if rowWeight * colWeight * layerWeight == 1.0 {
      assert rowWeight * colWeight == 1.0 && layerWeight == 1.0;
      assert rowWeight == 1.0;
    }
  }

  // ---------------------------------------------------------------------------
  // Flat cell indices
  // ---------------------------------------------------------------------------

  /** Where a row starts inside its layer. */
  function RowStart(row: nat): nat
    requires row < ROWS
  {
    if row == 0 then 0 else if row == 1 then COLS else COLS + COLS_ROW1
  }

  function IndexOf(p: KeyPos): (i: nat)
    requires p.Valid()
    ensures i < NUM_CELLS
  {
    p.layer * KEYS_PER_LAYER + RowStart(p.row) + p.col
  }

  function PosAt(i: nat): (p: KeyPos)
    requires i < NUM_CELLS
    ensures p.Valid() && IndexOf(p) == i
  {
    var layer := i / KEYS_PER_LAYER;
    var offset := i % KEYS_PER_LAYER;
    var row := if offset < COLS then 0 else if offset < COLS + COLS_ROW1 then 1 else 2;
    KeyPos(layer, row, offset - RowStart(row))
  }

  /** The flat index is a bijection between valid positions and 0..123. */
  lemma PosAtIndexOf(p: KeyPos)
    requires p.Valid()
    ensures PosAt(IndexOf(p)) == p
  {
    var i := IndexOf(p);
    assert i == p.layer * KEYS_PER_LAYER + (RowStart(p.row) + p.col);
    assert 0 <= RowStart(p.row) + p.col < KEYS_PER_LAYER;
    assert i / KEYS_PER_LAYER == p.layer && i % KEYS_PER_LAYER == RowStart(p.row) + p.col by {
      DivModLayer(i, p.layer, RowStart(p.row) + p.col);
    }
  }

  lemma DivModLayer(i: int, q: int, r: int)
    requires 0 <= r < KEYS_PER_LAYER && i == q * KEYS_PER_LAYER + r
    ensures i / KEYS_PER_LAYER == q && i % KEYS_PER_LAYER == r
  {
  }

  // ---------------------------------------------------------------------------
  // Fixed and forced-blank cells
  // ---------------------------------------------------------------------------

  /** The eight cells whose symbol never changes: the shift keys ★ ☆ ◆, the
      punctuation 、 。, the long-vowel mark ー, the middle dot ・ and `;`. */
  predicate IsFixedPosition(layer: nat, row: nat, col: nat)
  {
    (layer == 0 && row == 1 && (col == 2 || col == 7))
    || (layer == 0 && row == 2 && col == 9)
    || (layer == 0 && row == 2 && (col == 7 || col == 8))
    || (layer == 0 && row == 1 && col == 10)
    || (layer == 1 && row == 1 && col == 10)
    || (layer == 3 && row == 1 && col == 10)
  }

  /** Cells that must stay empty because their key cannot be chorded with the
      layer's shift key: the eleventh key of the ★ layer and column 9 of the ◆ layer. */
  predicate IsBlankPosition(layer: nat, row: nat, col: nat)
  {
    if layer == 2 then row == 1 && col == 10
    else if layer == 3 then col == 9
    else false
  }

  /** The symbol a fixed cell holds. */
  function FixedSymbol(p: KeyPos): Symbol
  {
    if p.layer == 0 && p.row == 1 && p.col == 2 then "★"
    else if p.layer == 0 && p.row == 1 && p.col == 7 then "☆"
    else if p.layer == 0 && p.row == 2 && p.col == 9 then "◆"
    else if p.layer == 0 && p.row == 2 && p.col == 7 then "、"
    else if p.layer == 0 && p.row == 2 && p.col == 8 then "。"
    else if p.layer == 0 && p.row == 1 && p.col == 10 then "ー"
    else if p.layer == 1 && p.row == 1 && p.col == 10 then "・"
    else if p.layer == 3 && p.row == 1 && p.col == 10 then ";"
    else BLANK
  }

  /** The flat indices of the fixed and the forced-blank cells. */
  const FIXED_INDICES: set<nat> := {12, 17, 20, 28, 29, 30, 51, 113}
  const BLANK_INDICES: set<nat> := {82, 102, 112, 123}

  predicate FixedAt(i: nat)
  {
    i in FIXED_INDICES
  }

  predicate BlankAt(i: nat)
  {
    i in BLANK_INDICES
  }

  /** The index sets are exactly the cells the position predicates pick out. */
  lemma FixedIndex(i: nat)
    requires i < NUM_CELLS
    ensures FixedAt(i) <==> IsFixedPosition(PosAt(i).layer, PosAt(i).row, PosAt(i).col)
  {
  }

  lemma BlankIndex(i: nat)
    requires i < NUM_CELLS
    ensures BlankAt(i) <==> IsBlankPosition(PosAt(i).layer, PosAt(i).row, PosAt(i).col)
  {
  }

  /** The position predicates applied to the cell at a flat index. */
  function IsReservedCell(i: nat): (r: bool)
    requires i < NUM_CELLS
    ensures r <==> FixedAt(i) || BlankAt(i)
  {
    FixedIndex(i);
    BlankIndex(i);
    var p := PosAt(i);
    IsFixedPosition(p.layer, p.row, p.col) || IsBlankPosition(p.layer, p.row, p.col)
  }

  /** A cell that receives a kana. */
  predicate FreeAt(i: nat)
    requires i < NUM_CELLS
  {
    !FixedAt(i) && !BlankAt(i)
  }

  /** An index of a free cell. */
  predicate IsFree(i: nat)
  {
    i < NUM_CELLS && FreeAt(i)
  }

  /** The free cells below `n`, in increasing order. */
  function FreeIndicesUpTo(n: nat): (r: seq<nat>)
    requires n <= NUM_CELLS
  {
    IndicesWhere(n, IsFree)
  }

  /** The number of free cells below `n`. */
  function FreeCountUpTo(n: nat): nat
    requires n <= NUM_CELLS
  {
    CountWhere(n, IsFree)
  }

  /** The list of free cells below `n` has one entry per free cell, each a free
      cell below `n`. */
  lemma FreeIndicesUpToFacts(n: nat)
    requires n <= NUM_CELLS
    ensures |FreeIndicesUpTo(n)| == FreeCountUpTo(n)
    ensures forall k :: 0 <= k < |FreeIndicesUpTo(n)| ==> FreeIndicesUpTo(n)[k] < n && FreeAt(FreeIndicesUpTo(n)[k])
  {
    IndicesWhereFacts(n, IsFree);
  }

  const FREE_CELLS: nat := NUM_CELLS - 8 - 4

  /** The members of `s` below `n`. */
  ghost function Below(s: set<nat>, n: nat): set<nat>
  {
    set i | i in s && i < n
  }

  lemma BelowStep(s: set<nat>, k: nat)
    ensures |Below(s, k + 1)| == |Below(s, k)| + (if k in s then 1 else 0)
  {
    if k in s {
      assert Below(s, k + 1) == Below(s, k) + {k};
    } else {
      assert Below(s, k + 1) == Below(s, k);
    }
  }

  /** Every cell below `n` is exactly one of free, fixed or blank. */
  lemma {:induction false} CountSplit(n: nat)
    requires n <= NUM_CELLS
    ensures FreeCountUpTo(n) + |Below(FIXED_INDICES, n)| + |Below(BLANK_INDICES, n)| == n
  {
    if n > 0 {
      var k := n - 1;
      CountSplit(k);
      BelowStep(FIXED_INDICES, k);
      BelowStep(BLANK_INDICES, k);
      CellKindOne(k);
    }
  }

  /** Each cell is exactly one of free, fixed and blank. */
  lemma CellKindOne(k: nat)
    requires k < NUM_CELLS
    ensures (if IsFree(k) then 1 else 0) + (if k in FIXED_INDICES then 1 else 0) + (if k in BLANK_INDICES then 1 else 0) == 1
  {
    assert FIXED_INDICES !! BLANK_INDICES;
  }

  /** No cell is both fixed and forced blank. */
  lemma FixedNotBlank(layer: nat, row: nat, col: nat)
    ensures !(IsFixedPosition(layer, row, col) && IsBlankPosition(layer, row, col))
  {
  }

  lemma FixedBelowAll()
    ensures |FIXED_INDICES| == 8 && Below(FIXED_INDICES, 124) == FIXED_INDICES
  {
  }

  lemma BlankBelowAll()
    ensures |BLANK_INDICES| == 4 && Below(BLANK_INDICES, 124) == BLANK_INDICES
  {
  }

  /** The grid has 4 × 31 = 124 cells; 8 are fixed and 4 forced blank, the two
      kinds never overlap, and the remaining 112 are free. */
  lemma CellCounts()
    ensures NUM_CELLS == 124 && FREE_CELLS == 112
    ensures |FIXED_INDICES| == 8 && |BLANK_INDICES| == 4
    ensures FreeCountUpTo(NUM_CELLS) == FREE_CELLS
  {
    CountSplit(124);
    FixedBelowAll();
    BlankBelowAll();
    assert FreeCountUpTo(124) + 8 + 4 == 124;
  }

  // ---------------------------------------------------------------------------
  // Position costs
  // ---------------------------------------------------------------------------

  /** Per-key placement penalties, one table per layer, each row padded to 11
      entries; 0.0 marks a fixed or forced-blank cell. */
  const POSITION_COSTS_L0: seq<seq<real>> := [
    [3.7, 2.0, 2.0, 2.4, 3.5, 3.9, 2.4, 2.0, 2.0, 3.7, 0.0],
    [1.5, 1.0, 0.0, 1.0, 2.4, 2.4, 1.0, 0.0, 1.0, 1.5, 0.0],
    [3.7, 2.8, 2.4, 2.0, 3.9, 3.0, 2.0, 0.0, 0.0, 0.0, 0.0]]

  const POSITION_COSTS_L1: seq<seq<real>> := [
    [10.9, 5.8, 5.8, 7.1, 10.0, 11.2, 7.1, 17.4, 11.6, 21.7, 0.0],
    [4.4, 2.9, 2.9, 2.9, 7.1, 7.1, 2.9, 5.8, 5.8, 8.7, 0.0],
    [10.9, 8.2, 7.1, 5.8, 11.2, 8.7, 5.8, 21.3, 16.4, 21.7, 0.0]]

  const POSITION_COSTS_L2: seq<seq<real>> := [
    [21.7, 11.6, 17.4, 7.1, 10.0, 11.2, 7.1, 5.8, 5.8, 10.9, 0.0],
    [8.7, 5.8, 5.8, 2.9, 7.1, 7.1, 2.9, 2.9, 2.9, 4.4, 0.0],
    [21.7, 16.4, 21.3, 5.8, 11.2, 8.7, 5.8, 7.1, 8.2, 10.9, 0.0]]

  const POSITION_COSTS_L3: seq<seq<real>> := [
    [80.8, 43.2, 43.2, 52.9, 74.8, 83.7, 52.9, 43.2, 43.2, 0.0, 0.0],
    [32.4, 21.6, 21.6, 21.6, 52.9, 52.9, 21.6, 21.6, 21.6, 0.0, 0.0],
    [80.8, 61.1, 52.9, 43.2, 83.7, 64.8, 43.2, 52.9, 61.1, 0.0, 0.0]]

  /** The placement penalty of a key; layers beyond the fourth cost nothing. The
      tables are indexed directly, so in the first four layers the row must be
      below 3 and the column below 11. */
  function GetPositionCost(layer: nat, row: nat, col: nat): real
    requires layer < NUM_LAYERS ==> row < ROWS && col < COLS_ROW1
  {
    if layer == 0 then POSITION_COSTS_L0[row][col]
    else if layer == 1 then POSITION_COSTS_L1[row][col]
    else if layer == 2 then POSITION_COSTS_L2[row][col]
    else if layer == 3 then POSITION_COSTS_L3[row][col]
    else 0.0
  }

  lemma CostRowLayer0(row: nat, col: nat)
    requires row < ROWS && col < ColsForRow(row)
    ensures GetPositionCost(0, row, col) >= 0.0
    ensures GetPositionCost(0, row, col) == 0.0 <==> IsFixedPosition(0, row, col)
  {
  }

  lemma CostRowLayer1(row: nat, col: nat)
    requires row < ROWS && col < ColsForRow(row)
    ensures GetPositionCost(1, row, col) >= 0.0
    ensures GetPositionCost(1, row, col) == 0.0 <==> IsFixedPosition(1, row, col)
  {
  }

  lemma CostRowLayer2(row: nat, col: nat)
    requires row < ROWS && col < ColsForRow(row)
    ensures GetPositionCost(2, row, col) >= 0.0
    ensures GetPositionCost(2, row, col) == 0.0 <==> IsBlankPosition(2, row, col)
  {
  }

  lemma CostRowLayer3(row: nat, col: nat)
    requires row < ROWS && col < ColsForRow(row)
    ensures GetPositionCost(3, row, col) >= 0.0
    ensures GetPositionCost(3, row, col) == 0.0 <==> IsFixedPosition(3, row, col) || IsBlankPosition(3, row, col)
  {
  }

  /** On the real keys of the grid the penalty is zero exactly at the fixed and
      forced-blank cells, and positive everywhere else. */
  lemma PositionCostZeroIffReserved(p: KeyPos)
    requires p.Valid()
    ensures GetPositionCost(p.layer, p.row, p.col) >= 0.0
    ensures GetPositionCost(p.layer, p.row, p.col) == 0.0
        <==> IsFixedPosition(p.layer, p.row, p.col) || IsBlankPosition(p.layer, p.row, p.col)
  {
    if p.layer == 0 { CostRowLayer0(p.row, p.col); }
    else if p.layer == 1 { CostRowLayer1(p.row, p.col); }
    else if p.layer == 2 { CostRowLayer2(p.row, p.col); }
    else { CostRowLayer3(p.row, p.col); }
  }

  // ---------------------------------------------------------------------------
  // Layouts
  // ---------------------------------------------------------------------------

  /** The per-criterion scores an evaluation attaches to a layout (each 0-100). */
  datatype EvaluationScores = EvaluationScores(
    rowSkip: real, homePosition: real, totalKeystrokes: real, sameFinger: real,
    singleKey: real, colemakSimilarity: real, positionCost: real, tsukiSimilarity: real,
    memorability: real, alternating: real, roll: real, redirectLow: real, inroll: real,
    arpeggio: real, shiftBalance: real)

  function DefaultScores(): EvaluationScores
  {
    EvaluationScores(0.0, 0.0, 0.0, 0.0, 0.0, 0.0, 0.0, 0.0, 0.0, 0.0, 0.0, 0.0, 0.0, 0.0, 0.0)
  }

  /** A candidate layout: the 124 cells in row-major order, with its fitness and
      score breakdown. */
  datatype Layout = Layout(cells: seq<Symbol>, fitness: real, scores: EvaluationScores)

  /** The cell count every layout has (10 + 11 + 10 keys in each of 4 layers). */
  predicate WellShaped(cells: seq<Symbol>)
  {
    |cells| == NUM_CELLS
  }

  function CellAt(cells: seq<Symbol>, p: KeyPos): Symbol
    requires WellShaped(cells) && p.Valid()
  {
    cells[IndexOf(p)]
  }

  /** Every fixed cell holds its fixed symbol. */
  predicate HasFixedSymbols(cells: seq<Symbol>)
    requires WellShaped(cells)
  {
    forall i :: 0 <= i < NUM_CELLS && FixedAt(i) ==> cells[i] == FixedSymbol(PosAt(i))
  }

  /** Every forced-blank cell is empty. */
  predicate HasBlankCells(cells: seq<Symbol>)
    requires WellShaped(cells)
  {
    forall i :: 0 <= i < NUM_CELLS && BlankAt(i) ==> cells[i] == BLANK
  }

  /** The contents of the free cells in row-major order. */
  function FreeContents(cells: seq<Symbol>): (r: seq<Symbol>)
    requires WellShaped(cells)
  {
    var free := FreeIndicesUpTo(NUM_CELLS);
    FreeIndicesUpToFacts(NUM_CELLS);
    seq(|free|, k requires 0 <= k < |free| => cells[free[k]])
  }

  /** `Layout::default`: every cell empty, fitness 0. */
  function Default(): (layout: Layout)
  {
    Layout(Repeat(BLANK, NUM_CELLS), 0.0, DefaultScores())
  }

  lemma DefaultIsEmpty()
    ensures WellShaped(Default().cells)
    ensures forall i :: 0 <= i < NUM_CELLS ==> Default().cells[i] == BLANK
  {
  }

  /** The fixed symbols, cell by cell. */
  lemma FixedSymbolsAtIndices(cells: seq<Symbol>)
    requires WellShaped(cells)
    requires cells[12] == "★" && cells[17] == "☆" && cells[20] == "ー" && cells[28] == "、"
    requires cells[29] == "。" && cells[30] == "◆" && cells[51] == "・" && cells[113] == ";"
    ensures HasFixedSymbols(cells)
  {
    forall i | 0 <= i < NUM_CELLS && FixedAt(i) ensures cells[i] == FixedSymbol(PosAt(i)) {
      FixedIndex(i);
    }
  }

  /** The forced-blank cells, cell by cell. */
  lemma BlankCellsAtIndices(cells: seq<Symbol>)
    requires WellShaped(cells)
    requires cells[82] == BLANK && cells[102] == BLANK && cells[112] == BLANK && cells[123] == BLANK
    ensures HasBlankCells(cells)
  {
    forall i | 0 <= i < NUM_CELLS && BlankAt(i) ensures cells[i] == BLANK {
      BlankIndex(i);
    }
  }

  /** The hand-tuned starting layout the optimiser is seeded with, row by row. */
  const IMPROVED_CUSTOM_ROWS: seq<seq<Symbol>> := [
    // no shift
    ["あ", "と", "に", "る", "を", "ち", "こ", "く", "て", "さ"],
    ["か", "う", "★", "し", "た", "き", "ん", "☆", "い", "の", "ー"],
    ["れ", "で", "が", "な", "だ", "ら", "は", "、", "。", "◆"],
    // ☆ shift
    ["べ", "ど", "わ", "しゅ", "ぐ", "ぞ", "ぎ", "ぽ", "きゅ", "ぺ"],
    ["せ", "じ", "す", "つ", "ぶ", "ふ", "っ", "ほ", "ろ", "ざ", "・"],
    ["じゅ", "ず", "む", "ひ", "ぷ", "び", "み", "にゅ", "ちゅ", "ぬ"],
    // ★ shift
    ["りゅ", "ぱ", "ぃ", "げ", "ぜ", "りょ", "ご", "や", "め", "ゆ"],
    ["ちょ", "そ", "よ", "も", "ね", "しょ", "ま", "り", "お", "け", "　"],
    ["きゃ", "ぎょ", "ひょ", "ば", "ぼ", "しゃ", "え", "じょ", "きょ", "へ"],
    // ◆ shift
    ["ひゅ", "りゃ", "ぎゃ", "みゅ", "にゃ", "ぢゃ", "みょ", "ヴ", "ぴょ", "　"],
    ["びょ", "じゃ", "ぇ", "ぴ", "ぢ", "びゅ", "づ", "ぁ", "ちゃ", "　", ";"],
    ["びゃ", "ぅ", "ぎゅ", "ぴゅ", "ぴゃ", "みゃ", "ぉ", "ひゃ", "にょ", "　"]]

  /** `Layout::improved_custom`: an empty grid whose twelve rows are then
      overwritten with the rows above. */
  function ImprovedCustom(): (layout: Layout)
    ensures WellShaped(layout.cells)
    ensures HasFixedSymbols(layout.cells) && HasBlankCells(layout.cells)
    ensures layout.fitness == 0.0 && layout.scores == DefaultScores()
  {
    var t := IMPROVED_CUSTOM_ROWS;
    var cells := t[0] + t[1] + t[2] + t[3] + t[4] + t[5] + t[6] + t[7] + t[8] + t[9] + t[10] + t[11];
    assert cells[12] == "★" && cells[17] == "☆" && cells[20] == "ー";
    assert cells[28] == "、" && cells[29] == "。" && cells[30] == "◆";
    assert cells[51] == "・" && cells[113] == ";";
    assert cells[82] == BLANK && cells[102] == BLANK && cells[112] == BLANK && cells[123] == BLANK;
    FixedSymbolsAtIndices(cells);
    BlankCellsAtIndices(cells);
    Layout(cells, 0.0, DefaultScores())
  }

  /** `HIRAGANA_FREQ_DEFAULT`: the fallback symbol list, most frequent first:
      73 single kana, five small vowels and 34 contracted sounds. */
  const HIRAGANA_FREQ_DEFAULT: seq<string> := [
    "い", "う", "ん", "し", "か", "の", "と", "た", "て", "く",
    "な", "に", "き", "は", "こ", "る", "が", "で", "っ", "す",
    "ま", "じ", "り", "も", "つ", "お", "ら", "を", "さ", "あ",
    "れ", "だ", "ち", "せ", "け", "よ", "ど", "そ", "え", "わ",
    "み", "め", "ひ", "ば", "や", "ろ", "ほ", "ふ", "ぶ", "ね",
    "ご", "ぎ", "げ", "む", "ず", "び", "ざ", "ぐ", "ぜ", "へ",
    "べ", "ゆ", "ぼ", "ぷ", "ぞ", "ぱ", "ぽ", "づ", "ぴ", "ぬ",
    "ぺ", "ヴ", "ぢ",
    "ぁ", "ぃ", "ぅ", "ぇ", "ぉ",
    "しょ", "じょ", "しゅ", "きょ", "しゃ", "ちょ", "じゅ", "りょ",
    "きゅ", "ちゅ", "ぎょ", "にゅ", "ひょ", "じゃ", "ちゃ", "りゅ",
    "きゃ", "びょ", "りゃ", "ぎゃ", "ぴょ", "ぴゅ", "びゅ", "みょ",
    "ひゃ", "みゅ", "にょ", "みゃ", "にゃ", "ひゅ", "びゃ", "ぴゃ",
    "ぎゅ", "ぢゃ"]

  /** The fallback list has one symbol per free cell. */
  lemma DefaultKanaFillsFreeCells()
    ensures |HIRAGANA_FREQ_DEFAULT| == FREE_CELLS
  {
  }

  // ---------------------------------------------------------------------------
  // Random layouts
  // ---------------------------------------------------------------------------

  lemma FreeCountMonotone(i: nat, j: nat)
    requires i <= j <= NUM_CELLS
    ensures FreeCountUpTo(i) <= FreeCountUpTo(j)
  {
    CountWhereMonotone(i, j, IsFree);
  }

  /** The k-th free cell has exactly k free cells before it. */
  lemma FreeIndexRank(n: nat, k: nat)
    requires n <= NUM_CELLS && k < |FreeIndicesUpTo(n)|
    ensures FreeIndicesUpTo(n)[k] < n && FreeAt(FreeIndicesUpTo(n)[k])
    ensures FreeCountUpTo(FreeIndicesUpTo(n)[k]) == k
  {
    IndicesWhereFacts(n, IsFree);
    IndicesWhereRank(n, IsFree, k);
  }

  /** The symbol list brought to exactly `n` entries: cut, or padded with blanks. */
  function PadOrTruncate(s: seq<Symbol>, n: nat): (r: seq<Symbol>)
    ensures |r| == n
    ensures forall k :: 0 <= k < n ==> r[k] == if k < |s| then s[k] else BLANK
  {
    if |s| >= n then s[..n] else s + Repeat(BLANK, n - |s|)
  }

  /** The empty grid with the eight fixed symbols written in. */
  function FixedSymbolGrid(): (cells: seq<Symbol>)
    ensures WellShaped(cells)
    ensures cells[12] == "★" && cells[17] == "☆" && cells[20] == "ー" && cells[28] == "、"
    ensures cells[29] == "。" && cells[30] == "◆" && cells[51] == "・" && cells[113] == ";"
    ensures cells[82] == BLANK && cells[102] == BLANK && cells[112] == BLANK && cells[123] == BLANK
  {
    // ★ ☆ ◆ 、 。 ー in layer 0, ・ in layer 1, ; in layer 3 (see FIXED_INDICES)
    Default().cells[12 := "★"][17 := "☆"][30 := "◆"][28 := "、"][29 := "。"]
      [20 := "ー"][51 := "・"][113 := ";"]
  }

  lemma FixedSymbolGridReserved()
    ensures HasFixedSymbols(FixedSymbolGrid()) && HasBlankCells(FixedSymbolGrid())
  {
    FixedSymbolsAtIndices(FixedSymbolGrid());
    BlankCellsAtIndices(FixedSymbolGrid());
  }

  /** The padding and truncation step of `random_with_chars`. */
  method PadChars(hiraganaChars: seq<Symbol>, totalPositions: nat) returns (chars: seq<Symbol>)
    ensures chars == PadOrTruncate(hiraganaChars, totalPositions)
  {
    chars := hiraganaChars;
    while |chars| < totalPositions
      invariant |hiraganaChars| < totalPositions ==>
                  |chars| <= totalPositions && chars == hiraganaChars + Repeat(BLANK, |chars| - |hiraganaChars|)
      invariant |hiraganaChars| >= totalPositions ==> chars == hiraganaChars
      decreases totalPositions - |chars|
    {
      chars := chars + [BLANK];
    }
    chars := chars[..totalPositions];
  }

  /** The filling step of `random_with_chars`: the free cells, visited in
      row-major order, receive the symbols in order. */
  method FillFreeCells(chars: seq<Symbol>) returns (cells: seq<Symbol>)
    requires |chars| == FREE_CELLS
    ensures WellShaped(cells) && HasFixedSymbols(cells) && HasBlankCells(cells)
    ensures FreeContents(cells) == chars
  {
    var grid := FixedSymbolGrid();
    CellCounts();
    cells := FillInOrder(grid, chars);
    FreeContentsByRank(cells, chars);
    FixedSymbolGridReserved();
    ReservedCellsKept(grid, cells);
  }

  /** The loop of the filling step: the free cells of `grid`, in row-major
      order, receive the symbols in order; no other cell changes. */
  method FillInOrder(grid: seq<Symbol>, chars: seq<Symbol>) returns (cells: seq<Symbol>)
    requires WellShaped(grid) && |chars| == FreeCountUpTo(NUM_CELLS)
    ensures FilledUpTo(cells, grid, chars, NUM_CELLS)
  {
    cells := grid;
    var charIdx := 0;
    for i := 0 to NUM_CELLS
      invariant charIdx == FreeCountUpTo(i) <= |chars|
      invariant FilledUpTo(cells, grid, chars, i)
    {
      if !IsReservedCell(i) {
        FreeCountMonotone(i + 1, NUM_CELLS);
        if charIdx < |chars| {
          FillWrite(cells, grid, chars, i);
          cells := cells[i := chars[charIdx]];
          charIdx := charIdx + 1;
        }
      } else {
        FillSkip(cells, grid, chars, i);
      }
    }
  }

  /** The cells below `i` are filled: every free cell below `i` holds the
      symbol of its rank among the free cells, and every other cell still
      holds what `grid` holds there. */
  ghost predicate FilledUpTo(cells: seq<Symbol>, grid: seq<Symbol>, chars: seq<Symbol>, i: nat)
  {
    && WellShaped(cells) && WellShaped(grid) && i <= NUM_CELLS
    && (forall j :: 0 <= j < i && FreeAt(j) ==> FreeCountUpTo(j) < |chars| && cells[j] == chars[FreeCountUpTo(j)])
    && (forall j :: 0 <= j < NUM_CELLS && !FreeAt(j) ==> cells[j] == grid[j])
  }

  lemma FillSkip(cells: seq<Symbol>, grid: seq<Symbol>, chars: seq<Symbol>, i: nat)
    requires i < NUM_CELLS && FilledUpTo(cells, grid, chars, i) && !FreeAt(i)
    ensures FilledUpTo(cells, grid, chars, i + 1)
  {
  }

  lemma FillWrite(cells: seq<Symbol>, grid: seq<Symbol>, chars: seq<Symbol>, i: nat)
    requires i < NUM_CELLS && FilledUpTo(cells, grid, chars, i) && FreeAt(i) && FreeCountUpTo(i) < |chars|
    ensures FilledUpTo(cells[i := chars[FreeCountUpTo(i)]], grid, chars, i + 1)
  {
    var next := cells[i := chars[FreeCountUpTo(i)]];
    forall j | 0 <= j < i + 1 && FreeAt(j)
      ensures FreeCountUpTo(j) < |chars| && next[j] == chars[FreeCountUpTo(j)]
    {
      if j < i {
        assert next[j] == cells[j];
      }
    }
    forall j | 0 <= j < NUM_CELLS && !FreeAt(j)
      ensures next[j] == grid[j]
    {
      assert j != i && next[j] == cells[j];
    }
  }

  /** A grid that agrees with `grid` outside the free cells keeps its fixed
      symbols and forced blanks. */
  lemma ReservedCellsKept(grid: seq<Symbol>, cells: seq<Symbol>)
    requires WellShaped(grid) && WellShaped(cells)
    requires HasFixedSymbols(grid) && HasBlankCells(grid)
    requires forall j :: 0 <= j < NUM_CELLS && !FreeAt(j) ==> cells[j] == grid[j]
    ensures HasFixedSymbols(cells) && HasBlankCells(cells)
  {
  }

  /** A grid whose every free cell holds the symbol of its rank among the free
      cells has exactly those symbols as its free contents. */
  lemma FreeContentsByRank(cells: seq<Symbol>, chars: seq<Symbol>)
    requires WellShaped(cells) && |chars| == FreeCountUpTo(NUM_CELLS)
    requires forall j :: 0 <= j < NUM_CELLS && FreeAt(j) ==>
               FreeCountUpTo(j) < |chars| && cells[j] == chars[FreeCountUpTo(j)]
    ensures FreeContents(cells) == chars
  {
    var free := FreeIndicesUpTo(NUM_CELLS);
    FreeIndicesUpToFacts(NUM_CELLS);
    forall k | 0 <= k < |free| ensures FreeContents(cells)[k] == chars[k] {
      FreeIndexRank(NUM_CELLS, k);
    }
  }

  /** `Layout::random_with_chars`: bring the symbol list to 112 entries, shuffle
      it, write the fixed symbols, then fill the free cells in row-major order. */
  method RandomWithChars(rng: Rng, hiraganaChars: seq<Symbol>) returns (layout: Layout)
    modifies rng
    ensures WellShaped(layout.cells)
    ensures HasFixedSymbols(layout.cells) && HasBlankCells(layout.cells)
    ensures multiset(FreeContents(layout.cells)) == multiset(PadOrTruncate(hiraganaChars, FREE_CELLS))
    ensures layout.fitness == 0.0 && layout.scores == DefaultScores()
    ensures rng.draws == Drop(old(rng.draws), FREE_CELLS - 1)
  {
    var totalPositions := KEYS_PER_LAYER * NUM_LAYERS - 8 - 4;
    var chars := PadChars(hiraganaChars, totalPositions);
    chars := rng.Shuffle(chars);
    var cells := FillFreeCells(chars);
    layout := Layout(cells, 0.0, DefaultScores());
  }
}
