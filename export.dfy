/** Exporting a layout for other tools: the physical key names of QWERTY and
    Colemak, the shift-key detection shared by the exporters, the hazkey romaji
    table (TSV, one "key\tkana" line per typed cell), the conversion section and
    letter keys of the keyboard-analyzer JSON, and the kana-to-romaji and
    romaji-to-key-code tables of the Karabiner export.

    The exporters scan layers 0-2, rows 0-2 and columns 0-9 in row-major order;
    the thirty keys of a layer are numbered k = 10 * row + col below. */
module Export {
  import opened Common
  import opened Layouts

  // ---------------------------------------------------------------------------
  // Physical keys
  // ---------------------------------------------------------------------------

  const QWERTY_KEYS: seq<seq<string>> := [
    ["q", "w", "e", "r", "t", "y", "u", "i", "o", "p"],
    ["a", "s", "d", "f", "g", "h", "j", "k", "l", ";"],
    ["z", "x", "c", "v", "b", "n", "m", ",", ".", "/"]
  ]

  const COLEMAK_KEYS: seq<seq<string>> := [
    ["q", "w", "f", "p", "g", "j", "l", "u", "y", ";"],
    ["a", "r", "s", "t", "d", "h", "n", "e", "i", "o"],
    ["z", "x", "c", "v", "b", "k", "m", ",", ".", "/"]
  ]

  /** Three rows of ten one-character key names. */
  predicate IsKeyTable(keys: seq<seq<string>>)
  {
    |keys| == ROWS && forall r :: 0 <= r < ROWS ==> |keys[r]| == COLS && forall c :: 0 <= c < COLS ==> |keys[r][c]| == 1
  }

  lemma KeyTablesShaped()
    ensures IsKeyTable(QWERTY_KEYS) && IsKeyTable(COLEMAK_KEYS)
  {
  }

  /** The thirty keys a layer is scanned over. */
  const SCAN: nat := 30

  /** The symbols of rows 0-2, columns 0-9 of `layer`, in row-major order
      (the eleventh home-row key is not scanned). */
  function LayerScan(cells: seq<Symbol>, layer: nat): (scan: seq<Symbol>)
    requires WellShaped(cells) && layer < NUM_LAYERS
    ensures |scan| == SCAN
  {
    var base := layer * KEYS_PER_LAYER;
    cells[base..base + COLS] + cells[base + COLS..base + 2 * COLS] + cells[base + COLS + COLS_ROW1..base + KEYS_PER_LAYER]
  }

  /** Scanned key 10 * row + col is the cell at (layer, row, col). */
  lemma LayerScanAt(cells: seq<Symbol>, layer: nat, row: nat, col: nat)
    requires WellShaped(cells) && layer < NUM_LAYERS && row < ROWS && col < COLS
    ensures LayerScan(cells, layer)[row * COLS + col] == CellAt(cells, KeyPos(layer, row, col))
  {
  }

  /** The key names in the same order. */
  function KeyNames(keys: seq<seq<string>>): (names: seq<string>)
    requires IsKeyTable(keys)
    ensures |names| == SCAN
  {
    keys[0] + keys[1] + keys[2]
  }

  lemma KeyNamesAt(keys: seq<seq<string>>, row: nat, col: nat)
    requires IsKeyTable(keys) && row < ROWS && col < COLS
    ensures KeyNames(keys)[row * COLS + col] == keys[row][col]
  {
  }

  function KeysFor(colemak: bool): (keys: seq<seq<string>>)
    ensures IsKeyTable(keys)
  {
    KeyTablesShaped();
    if colemak then COLEMAK_KEYS else QWERTY_KEYS
  }

  // ---------------------------------------------------------------------------
  // Shift keys
  // ---------------------------------------------------------------------------

  const STAR: Symbol := "★"
  const CIRCLE: Symbol := "☆"
  const DEFAULT_STAR_KEY: string := "d"
  const DEFAULT_CIRCLE_KEY: string := "k"

  /** The key name after scanning the first `n` keys: the name of the last one
      holding `mark`, or `default` when none does. */
  function LastKeyOf(scan: seq<Symbol>, names: seq<string>, mark: Symbol, default: string, n: nat): string
    requires n <= |scan| == |names|
  {
    if n == 0 then default
    else if scan[n - 1] == mark then names[n - 1]
    else LastKeyOf(scan, names, mark, default, n - 1)
  }

  /** Without the mark the default stays. */
  lemma {:induction false} LastKeyDefault(scan: seq<Symbol>, names: seq<string>, mark: Symbol, default: string, n: nat)
    requires n <= |scan| == |names| && mark !in scan[..n]
    ensures LastKeyOf(scan, names, mark, default, n) == default
  {
    if n > 0 {
      assert scan[..n] == scan[..n - 1] + [scan[n - 1]];
      LastKeyDefault(scan, names, mark, default, n - 1);
    }
  }

  /** Otherwise the name of the mark's last occurrence wins. */
  lemma {:induction false} LastKeyAt(scan: seq<Symbol>, names: seq<string>, mark: Symbol, default: string, n: nat, k: nat)
    requires k < n <= |scan| == |names| && scan[k] == mark && mark !in scan[k + 1..n]
    ensures LastKeyOf(scan, names, mark, default, n) == names[k]
  {
    if k < n - 1 {
      assert scan[k + 1..n] == scan[k + 1..n - 1] + [scan[n - 1]];
      LastKeyAt(scan, names, mark, default, n - 1, k);
    }
  }

  /** The ★ key of a layout in the given key table. */
  function StarKey(cells: seq<Symbol>, keys: seq<seq<string>>): string
    requires WellShaped(cells) && IsKeyTable(keys)
  {
    LastKeyOf(LayerScan(cells, 0), KeyNames(keys), STAR, DEFAULT_STAR_KEY, SCAN)
  }

  /** The ☆ key of a layout in the given key table. */
  function CircleKey(cells: seq<Symbol>, keys: seq<seq<string>>): string
    requires WellShaped(cells) && IsKeyTable(keys)
  {
    LastKeyOf(LayerScan(cells, 0), KeyNames(keys), CIRCLE, DEFAULT_CIRCLE_KEY, SCAN)
  }

  /** The ★ and ☆ keys (the scan in both `export_tsv` and
      `export_analyzer_json`). */
  method FindShiftKeys(cells: seq<Symbol>, keys: seq<seq<string>>) returns (starKey: string, circleKey: string)
    requires WellShaped(cells) && IsKeyTable(keys)
    ensures starKey == StarKey(cells, keys) && circleKey == CircleKey(cells, keys)
  {
    var scan, names := LayerScan(cells, 0), KeyNames(keys);
    starKey, circleKey := DEFAULT_STAR_KEY, DEFAULT_CIRCLE_KEY;
    var k := 0;
    while k < SCAN
      invariant k <= SCAN
      invariant starKey == LastKeyOf(scan, names, STAR, DEFAULT_STAR_KEY, k)
      invariant circleKey == LastKeyOf(scan, names, CIRCLE, DEFAULT_CIRCLE_KEY, k)
    {
      if scan[k] == STAR {
        starKey := names[k];
      }
      if scan[k] == CIRCLE {
        circleKey := names[k];
      }
      k := k + 1;
    }
  }

  // ---------------------------------------------------------------------------
  // hazkey TSV
  // ---------------------------------------------------------------------------

  /** Layer-0 cells that produce an entry: not a shift key, not blank, not NUL. */
  predicate BaseKept(kana: Symbol)
  {
    kana != STAR && kana != CIRCLE && kana != BLANK && kana != NUL
  }

  /** Layer-1 and layer-2 cells that produce an entry: also not a (handa)kuten mark. */
  predicate ShiftKept(kana: Symbol)
  {
    BaseKept(kana) && kana != "゛" && kana != "゜"
  }

  predicate Kept(layer: nat, kana: Symbol)
  {
    if layer == 0 then BaseKept(kana) else ShiftKept(kana)
  }

  /** What a layer's entries start with: nothing, ☆ or ★. */
  function LayerPrefix(layer: nat): string
  {
    if layer == 0 then "" else if layer == 1 then CIRCLE else STAR
  }

  /** The entry for a key: the (prefixed) key name, a tab, the kana. */
  function EntryLine(layer: nat, name: string, kana: Symbol): string
  {
    LayerPrefix(layer) + name + "\t" + kana
  }

  /** The entries of the first `n` scanned keys of `layer`, in scan order. */
  function EntryLines(scan: seq<Symbol>, names: seq<string>, layer: nat, n: nat): seq<string>
    requires n <= |scan| == |names|
  {
    if n == 0 then []
    else EntryLines(scan, names, layer, n - 1) + (if Kept(layer, scan[n - 1]) then [EntryLine(layer, names[n - 1], scan[n - 1])] else [])
  }

  function TsvTitle(colemak: bool): string
  {
    "# 新月配列 (Shingetsu) " + (if colemak then "Colemak" else "QWERTY") + " ANSI用 hazkey ローマ字テーブル"
  }

  /** The title, the shift-key comment and the shift-key definitions. */
  function TsvHeader(colemak: bool, starKey: string, circleKey: string): seq<string>
  {
    [TsvTitle(colemak),
     "# ★=" + starKey + " (shift_state=1), ☆=" + circleKey + " (shift_state=2)",
     "",
     "# シフト",
     starKey + "\t" + STAR,
     circleKey + "\t" + CIRCLE,
     ""]
  }

  /** The entries of one layer of a layout. */
  function LayerEntries(cells: seq<Symbol>, keys: seq<seq<string>>, layer: nat): seq<string>
    requires WellShaped(cells) && IsKeyTable(keys) && layer < 3
  {
    EntryLines(LayerScan(cells, layer), KeyNames(keys), layer, SCAN)
  }

  /** Every line of the hazkey table, in output order. */
  function TsvLines(cells: seq<Symbol>, colemak: bool): seq<string>
    requires WellShaped(cells)
  {
    var keys := KeysFor(colemak);
    var starKey, circleKey := StarKey(cells, keys), CircleKey(cells, keys);
    TsvHeader(colemak, starKey, circleKey)
      + ["# No Shift (ベース)"] + LayerEntries(cells, keys, 0)
      + ["", "# ☆シフト (" + circleKey + "前置)"] + LayerEntries(cells, keys, 1)
      + ["", "# ★シフト (" + starKey + "前置)"] + LayerEntries(cells, keys, 2)
  }

  /** Appends the entries of one layer. */
  method AppendEntries(lines: seq<string>, cells: seq<Symbol>, keys: seq<seq<string>>, layer: nat) returns (result: seq<string>)
    requires WellShaped(cells) && IsKeyTable(keys) && layer < 3
    ensures result == lines + LayerEntries(cells, keys, layer)
  {
    var scan, names := LayerScan(cells, layer), KeyNames(keys);
    result := lines;
    var k := 0;
    while k < SCAN
      invariant k <= SCAN
      invariant result == lines + EntryLines(scan, names, layer, k)
    {
      var kana := scan[k];
      if layer == 0 && (kana == STAR || kana == CIRCLE || kana == BLANK || kana == NUL) {
      } else if layer != 0 && (kana == STAR || kana == CIRCLE || kana == BLANK || kana == NUL || kana == "゛" || kana == "゜") {
      } else {
        result := result + [LayerPrefix(layer) + names[k] + "\t" + kana];
      }
      k := k + 1;
    }
  }

  /** The text `export_tsv` writes: the lines joined by "\n", plus a final "\n". */
  method ExportTsv(cells: seq<Symbol>, colemak: bool) returns (content: string)
    requires WellShaped(cells)
    ensures content == Join(TsvLines(cells, colemak), "\n") + "\n"
  {
    var keys := KeysFor(colemak);
    var lines := [TsvTitle(colemak)];
    var starKey, circleKey := FindShiftKeys(cells, keys);
    lines := lines + ["# ★=" + starKey + " (shift_state=1), ☆=" + circleKey + " (shift_state=2)", ""];
    lines := lines + ["# シフト", starKey + "\t" + STAR, circleKey + "\t" + CIRCLE, ""];
    lines := lines + ["# No Shift (ベース)"];
    assert lines == TsvHeader(colemak, starKey, circleKey) + ["# No Shift (ベース)"];
    lines := AppendEntries(lines, cells, keys, 0);
    lines := lines + ["", "# ☆シフト (" + circleKey + "前置)"];
    lines := AppendEntries(lines, cells, keys, 1);
    lines := lines + ["", "# ★シフト (" + starKey + "前置)"];
    lines := AppendEntries(lines, cells, keys, 2);
    assert lines == TsvLines(cells, colemak);
    content := Join(lines, "\n") + "\n";
  }

  /** An entry is produced exactly for each kept cell of the layer. */
  lemma {:induction false} EntryLinesMembers(scan: seq<Symbol>, names: seq<string>, layer: nat, n: nat, line: string)
    requires n <= |scan| == |names|
    ensures line in EntryLines(scan, names, layer, n) <==>
      exists k :: 0 <= k < n && Kept(layer, scan[k]) && line == EntryLine(layer, names[k], scan[k])
  {
    if n > 0 {
      EntryLinesMembers(scan, names, layer, n - 1, line);
      if line in EntryLines(scan, names, layer, n) && line !in EntryLines(scan, names, layer, n - 1) {
        assert Kept(layer, scan[n - 1]) && line == EntryLine(layer, names[n - 1], scan[n - 1]);
      }
    }
  }

  /** Row-major order: the entries of the first `m` keys come first. */
  lemma {:induction false} EntryLinesPrefix(scan: seq<Symbol>, names: seq<string>, layer: nat, m: nat, n: nat)
    requires m <= n <= |scan| == |names|
    ensures EntryLines(scan, names, layer, m) <= EntryLines(scan, names, layer, n)
    decreases n
  {
    if m < n {
      EntryLinesPrefix(scan, names, layer, m, n - 1);
    }
  }

  /** One entry per kept cell: at most one per key, exactly one when every
      key is kept. */
  lemma {:induction false} EntryLinesCount(scan: seq<Symbol>, names: seq<string>, layer: nat, n: nat)
    requires n <= |scan| == |names|
    ensures |EntryLines(scan, names, layer, n)| <= n
    ensures (forall k :: 0 <= k < n ==> Kept(layer, scan[k])) ==> |EntryLines(scan, names, layer, n)| == n
  {
    if n > 0 {
      EntryLinesCount(scan, names, layer, n - 1);
    }
  }

  /** The table starts with its title and the two shift-key lines, and the
      layer-0 entries follow the eight header lines directly. */
  lemma TsvLinesLayout(cells: seq<Symbol>, colemak: bool)
    requires WellShaped(cells)
    ensures var lines := TsvLines(cells, colemak);
      var keys := KeysFor(colemak);
      var e0 := LayerEntries(cells, keys, 0);
      |lines| == 12 + |e0| + |LayerEntries(cells, keys, 1)| + |LayerEntries(cells, keys, 2)|
      && lines[0] == TsvTitle(colemak)
      && lines[4] == StarKey(cells, keys) + "\t★" && lines[5] == CircleKey(cells, keys) + "\t☆"
      && lines[8..8 + |e0|] == e0
  {
  }

  /** A string without tabs or line breaks. */
  predicate Plain(s: string)
  {
    '\n' !in s && '\t' !in s
  }

  predicate AllPlain(strings: seq<string>)
  {
    forall i :: 0 <= i < |strings| ==> Plain(strings[i])
  }

  /** Lines without line breaks inside them. */
  predicate Unbroken(lines: seq<string>)
  {
    forall i :: 0 <= i < |lines| ==> '\n' !in lines[i]
  }

  lemma UnbrokenConcat(a: seq<string>, b: seq<string>)
    requires Unbroken(a) && Unbroken(b)
    ensures Unbroken(a + b)
  {
    assert forall i :: |a| <= i < |a + b| ==> (a + b)[i] == b[i - |a|];
  }

  lemma KeyNamesPlain(colemak: bool)
    ensures AllPlain(KeyNames(KeysFor(colemak)))
  {
    var keys := KeysFor(colemak);
    assert AllPlain(keys[0]) && AllPlain(keys[1]) && AllPlain(keys[2]);
  }

  /** An entry splits at its tab into the prefixed key name and the kana. */
  lemma EntryLineSplits(layer: nat, name: string, kana: Symbol)
    requires Plain(name) && Plain(kana)
    ensures Split(EntryLine(layer, name, kana), '\t') == [LayerPrefix(layer) + name, kana]
  {
    var head := LayerPrefix(layer) + name;
    assert '\t' !in LayerPrefix(layer);
    assert '\t' !in head;
    JoinTwo(head, kana, "\t");
    SplitJoin([head, kana], '\t');
  }

  lemma {:induction false} EntryLinesUnbroken(scan: seq<Symbol>, names: seq<string>, layer: nat, n: nat)
    requires n <= |scan| == |names| && AllPlain(scan) && AllPlain(names)
    ensures Unbroken(EntryLines(scan, names, layer, n))
  {
    if n > 0 {
      EntryLinesUnbroken(scan, names, layer, n - 1);
      assert '\n' !in LayerPrefix(layer);
      assert '\n' !in EntryLine(layer, names[n - 1], scan[n - 1]);
      UnbrokenConcat(EntryLines(scan, names, layer, n - 1), if Kept(layer, scan[n - 1]) then [EntryLine(layer, names[n - 1], scan[n - 1])] else []);
    }
  }

  lemma {:induction false} LastKeyPlain(scan: seq<Symbol>, names: seq<string>, mark: Symbol, default: string, n: nat)
    requires n <= |scan| == |names| && AllPlain(names) && Plain(default)
    ensures Plain(LastKeyOf(scan, names, mark, default, n))
  {
    if n > 0 {
      LastKeyPlain(scan, names, mark, default, n - 1);
    }
  }

  /** Every exported cell is free of tabs and line breaks. */
  predicate PlainCells(cells: seq<Symbol>)
    requires WellShaped(cells)
  {
    AllPlain(LayerScan(cells, 0)) && AllPlain(LayerScan(cells, 1)) && AllPlain(LayerScan(cells, 2))
  }

  /** The fixed text of the header has no line breaks. */
  lemma TitleTextUnbroken()
    ensures '\n' !in "# 新月配列 (Shingetsu) " && '\n' !in " ANSI用 hazkey ローマ字テーブル"
    ensures '\n' !in "Colemak" && '\n' !in "QWERTY"
  {
  }

  lemma HeaderTextUnbroken()
    ensures '\n' !in "# ★=" && '\n' !in " (shift_state=1), ☆=" && '\n' !in " (shift_state=2)"
  {
  }

  lemma SectionTextUnbroken()
    ensures '\n' !in "# シフト" && '\n' !in "\t★" && '\n' !in "\t☆" && '\n' !in "# No Shift (ベース)"
    ensures '\n' !in "# ☆シフト (" && '\n' !in "# ★シフト (" && '\n' !in "前置)"
  {
  }

  lemma HeaderUnbroken(colemak: bool, starKey: string, circleKey: string)
    requires Plain(starKey) && Plain(circleKey)
    ensures Unbroken(TsvHeader(colemak, starKey, circleKey) + ["# No Shift (ベース)"])
    ensures Unbroken(["", "# ☆シフト (" + circleKey + "前置)"]) && Unbroken(["", "# ★シフト (" + starKey + "前置)"])
  {
    TitleTextUnbroken();
    HeaderTextUnbroken();
    SectionTextUnbroken();
  }

  /** No line of the table breaks. */
  lemma TsvLinesUnbroken(cells: seq<Symbol>, colemak: bool)
    requires WellShaped(cells) && PlainCells(cells)
    ensures Unbroken(TsvLines(cells, colemak))
  {
    var keys := KeysFor(colemak);
    var names := KeyNames(keys);
    KeyNamesPlain(colemak);
    var starKey, circleKey := StarKey(cells, keys), CircleKey(cells, keys);
    LastKeyPlain(LayerScan(cells, 0), names, STAR, DEFAULT_STAR_KEY, SCAN);
    LastKeyPlain(LayerScan(cells, 0), names, CIRCLE, DEFAULT_CIRCLE_KEY, SCAN);
    EntryLinesUnbroken(LayerScan(cells, 0), names, 0, SCAN);
    EntryLinesUnbroken(LayerScan(cells, 1), names, 1, SCAN);
    EntryLinesUnbroken(LayerScan(cells, 2), names, 2, SCAN);
    HeaderUnbroken(colemak, starKey, circleKey);
    var a := TsvHeader(colemak, starKey, circleKey) + ["# No Shift (ベース)"];
    var b := ["", "# ☆シフト (" + circleKey + "前置)"];
    var c := ["", "# ★シフト (" + starKey + "前置)"];
    UnbrokenConcat(a, LayerEntries(cells, keys, 0));
    UnbrokenConcat(a + LayerEntries(cells, keys, 0), b);
    UnbrokenConcat(a + LayerEntries(cells, keys, 0) + b, LayerEntries(cells, keys, 1));
    UnbrokenConcat(a + LayerEntries(cells, keys, 0) + b + LayerEntries(cells, keys, 1), c);
    UnbrokenConcat(a + LayerEntries(cells, keys, 0) + b + LayerEntries(cells, keys, 1) + c, LayerEntries(cells, keys, 2));
  }

  /** Reading the file back: dropping the final "\n" and splitting at line
      breaks gives the lines again. */
  lemma TsvRoundTrip(cells: seq<Symbol>, colemak: bool, content: string)
    requires WellShaped(cells) && PlainCells(cells)
    requires content == Join(TsvLines(cells, colemak), "\n") + "\n"
    ensures |content| >= 1 && content[|content| - 1] == '\n'
    ensures Split(content[..|content| - 1], '\n') == TsvLines(cells, colemak)
  {
    var lines := TsvLines(cells, colemak);
    TsvLinesUnbroken(cells, colemak);
    SplitJoin(lines, '\n');
    assert content[..|content| - 1] == Join(lines, "\n");
  }

  // ---------------------------------------------------------------------------
  // keyboard-analyzer JSON
  // ---------------------------------------------------------------------------

  /** The analyzer's finger number for a letter column, as the program writes
      it: left hand 0-3 (little to index), right hand 6-9 counted from col 5. */
  function AnalyzerFingerAsWritten(col: nat): (f: nat)
    requires col < COLS
    ensures col < 5 ==> f == if col < 3 then col else 3
    ensures col >= 5 ==> f == 6 + (if col - 5 < 3 then col - 5 else 3)
  {
    if col < 5 then (if col < 3 then col else 3) else 6 + (if col - 5 < 3 then col - 5 else 3)
  }

  /** Column 6 (u, j, m) is put on the right middle finger, although the same
      program gives that column to the index finger everywhere else: for the
      "7" key above it and in the layout's own finger assignment. */
  lemma AnalyzerFingerColumnSix()
    ensures AnalyzerFingerAsWritten(6) == 7
    ensures KeyPos(0, 1, 6).Finger() == 3
    ensures AnalyzerFingerAsWritten(9 - 6) == 3
  {
  }

  /** The analyzer's finger number, mirrored between the hands: 0-3 are the
      left little to index fingers, 9-6 the right ones. */
  function AnalyzerFinger(col: nat): (f: nat)
    requires col < COLS
    ensures f <= 3 || 6 <= f <= 9
    ensures f <= 3 <==> col < 5
  {
    if col < 5 then (if col < 3 then col else 3) else 9 - (if 9 - col < 3 then 9 - col else 3)
  }

  /** The corrected numbering agrees with the layout's fingers (0 little, 3
      index) and is symmetric between the hands. */
  lemma AnalyzerFingerMatchesLayout(p: KeyPos)
    requires p.col < COLS
    ensures p.col < 5 ==> AnalyzerFinger(p.col) == p.Finger()
    ensures p.col >= 5 ==> AnalyzerFinger(p.col) == 9 - p.Finger()
    ensures AnalyzerFinger(9 - p.col) == 9 - AnalyzerFinger(p.col)
  {
  }

  /** The two numberings part only on columns 6-8, where the program's
      number is one above the mirrored one. */
  lemma AnalyzerFingerDiffers(col: nat)
    requires col < COLS
    ensures AnalyzerFingerAsWritten(col) != AnalyzerFinger(col) <==> 6 <= col <= 8
    ensures 6 <= col <= 8 ==> AnalyzerFingerAsWritten(col) == AnalyzerFinger(col) + 1
  {
  }

  /** The home-row keys the analyzer marks: columns 0, 3-6 and 9. */
  predicate AnalyzerHome(col: nat)
  {
    3 <= col <= 6 || col == 0 || col == 9
  }

  lemma AnalyzerHomeMirror(col: nat)
    requires col < COLS
    ensures AnalyzerHome(col) <==> AnalyzerHome(9 - col)
    ensures AnalyzerHome(col) ==> AnalyzerFinger(col) == 0 || AnalyzerFinger(col) == 3 || AnalyzerFinger(col) == 6 || AnalyzerFinger(col) == 9
  {
  }

  /** One letter key of the analyzer: its QWERTY id, the symbols of layers 0-2,
      its finger and whether it is marked as a home key. */
  datatype AnalyzerKey = AnalyzerKey(id: string, legend: seq<Symbol>, finger: nat, home: bool)

  /** The ten letter keys of `row` (without the decorative keys around them),
      numbered by the program's finger expression when `asWritten` holds and
      by the mirrored numbering otherwise. */
  method AnalyzerLetterRow(cells: seq<Symbol>, row: nat, asWritten: bool) returns (keys: seq<AnalyzerKey>)
    requires WellShaped(cells) && row < ROWS
    ensures |keys| == COLS
    ensures forall col :: 0 <= col < COLS ==> keys[col] == AnalyzerKey(QWERTY_KEYS[row][col],
      [CellAt(cells, KeyPos(0, row, col)), CellAt(cells, KeyPos(1, row, col)), CellAt(cells, KeyPos(2, row, col))],
      if asWritten then AnalyzerFingerAsWritten(col) else AnalyzerFinger(col), row == 1 && AnalyzerHome(col))
  {
    keys := [];
    var col := 0;
    while col < COLS
      invariant col <= COLS && |keys| == col
      invariant forall c :: 0 <= c < col ==> keys[c] == AnalyzerKey(QWERTY_KEYS[row][c],
        [CellAt(cells, KeyPos(0, row, c)), CellAt(cells, KeyPos(1, row, c)), CellAt(cells, KeyPos(2, row, c))],
        if asWritten then AnalyzerFingerAsWritten(c) else AnalyzerFinger(c), row == 1 && AnalyzerHome(c))
    {
      var legend := [CellAt(cells, KeyPos(0, row, col)), CellAt(cells, KeyPos(1, row, col)), CellAt(cells, KeyPos(2, row, col))];
      var finger := if asWritten then AnalyzerFingerAsWritten(col) else AnalyzerFinger(col);
      var home := row == 1 && (3 <= col <= 6 || col == 0 || col == 9);
      keys := keys + [AnalyzerKey(QWERTY_KEYS[row][col], legend, finger, home)];
      col := col + 1;
    }
  }

  /** A conversion entry: the key to press and the shift key held with it
      (None for layer 0, whose entries have no shift and no "renzsft"). */
  datatype Conversion = Conversion(key: string, shift: Option<string>)

  /** Layer 0 of the table after the first `n` keys: every kept cell inserted,
      a later key overwriting an earlier one with the same kana. */
  function BaseConversion(scan: seq<Symbol>, names: seq<string>, n: nat): map<Symbol, Conversion>
    requires n <= |scan| == |names|
  {
    if n == 0 then map[]
    else
      var table := BaseConversion(scan, names, n - 1);
      if BaseKept(scan[n - 1]) then table[scan[n - 1] := Conversion(names[n - 1], None)] else table
  }

  /** A shifted layer added to `table`: a kept cell is inserted only when its
      kana has no entry yet. */
  function ShiftConversion(table: map<Symbol, Conversion>, scan: seq<Symbol>, names: seq<string>, shiftKey: string, n: nat): map<Symbol, Conversion>
    requires n <= |scan| == |names|
  {
    if n == 0 then table
    else
      var prev := ShiftConversion(table, scan, names, shiftKey, n - 1);
      var kana := scan[n - 1];
      if ShiftKept(kana) && kana !in prev then prev[kana := Conversion(names[n - 1], Some(shiftKey))] else prev
  }

  /** The conversion section: layer 0, then layer 1 held with ☆, then layer 2
      held with ★ (key names and shift keys from the QWERTY table). */
  function ConversionTable(cells: seq<Symbol>): map<Symbol, Conversion>
    requires WellShaped(cells)
  {
    var keys := KeysFor(false);
    var names := KeyNames(keys);
    var layer0 := BaseConversion(LayerScan(cells, 0), names, SCAN);
    var layer1 := ShiftConversion(layer0, LayerScan(cells, 1), names, CircleKey(cells, keys), SCAN);
    ShiftConversion(layer1, LayerScan(cells, 2), names, StarKey(cells, keys), SCAN)
  }

  method InsertBase(scan: seq<Symbol>, names: seq<string>) returns (table: map<Symbol, Conversion>)
    requires |scan| == |names|
    ensures table == BaseConversion(scan, names, |scan|)
  {
    table := map[];
    var k := 0;
    while k < |scan|
      invariant k <= |scan| && table == BaseConversion(scan, names, k)
    {
      var kana := scan[k];
      if !(kana == STAR || kana == CIRCLE || kana == BLANK || kana == NUL) {
        table := table[kana := Conversion(names[k], None)];
      }
      k := k + 1;
    }
  }

  method InsertShifted(table: map<Symbol, Conversion>, scan: seq<Symbol>, names: seq<string>, shiftKey: string) returns (result: map<Symbol, Conversion>)
    requires |scan| == |names|
    ensures result == ShiftConversion(table, scan, names, shiftKey, |scan|)
  {
    result := table;
    var k := 0;
    while k < |scan|
      invariant k <= |scan| && result == ShiftConversion(table, scan, names, shiftKey, k)
    {
      var kana := scan[k];
      if !(kana == STAR || kana == CIRCLE || kana == BLANK || kana == NUL || kana == "゛" || kana == "゜") && kana !in result {
        result := result[kana := Conversion(names[k], Some(shiftKey))];
      }
      k := k + 1;
    }
  }

  /** The conversion section of `export_analyzer_json`. */
  method BuildConversion(cells: seq<Symbol>) returns (conversion: map<Symbol, Conversion>)
    requires WellShaped(cells)
    ensures conversion == ConversionTable(cells)
  {
    var keys := KeysFor(false);
    var names := KeyNames(keys);
    var starKey, circleKey := FindShiftKeys(cells, keys);
    conversion := InsertBase(LayerScan(cells, 0), names);
    conversion := InsertShifted(conversion, LayerScan(cells, 1), names, circleKey);
    conversion := InsertShifted(conversion, LayerScan(cells, 2), names, starKey);
  }

  /** A kana has a layer-0 entry exactly when some kept cell holds it, and
      that entry is unshifted. */
  lemma {:induction false} BaseConversionKeys(scan: seq<Symbol>, names: seq<string>, n: nat, kana: Symbol)
    requires n <= |scan| == |names|
    ensures kana in BaseConversion(scan, names, n) <==> BaseKept(kana) && kana in scan[..n]
    ensures kana in BaseConversion(scan, names, n) ==> BaseConversion(scan, names, n)[kana].shift.None?
  {
    if n > 0 {
      BaseConversionKeys(scan, names, n - 1, kana);
      assert scan[..n] == scan[..n - 1] + [scan[n - 1]];
    }
  }

  /** The layer-0 entry names the key of the kana's last occurrence. */
  lemma {:induction false} BaseConversionAt(scan: seq<Symbol>, names: seq<string>, n: nat, k: nat)
    requires k < n <= |scan| == |names| && BaseKept(scan[k]) && scan[k] !in scan[k + 1..n]
    ensures scan[k] in BaseConversion(scan, names, n)
    ensures BaseConversion(scan, names, n)[scan[k]] == Conversion(names[k], None)
  {
    BaseConversionKeys(scan, names, n, scan[k]);
    assert scan[..n][k] == scan[k];
    if k < n - 1 {
      assert scan[k + 1..n] == scan[k + 1..n - 1] + [scan[n - 1]];
      BaseConversionAt(scan, names, n - 1, k);
    }
  }

  /** A shifted layer keeps every existing entry; a kana without one gains an
      entry exactly when a kept cell of the layer holds it. */
  lemma {:induction false} ShiftConversionKeys(table: map<Symbol, Conversion>, scan: seq<Symbol>, names: seq<string>, shiftKey: string, n: nat, kana: Symbol)
    requires n <= |scan| == |names|
    ensures kana in table ==> kana in ShiftConversion(table, scan, names, shiftKey, n) && ShiftConversion(table, scan, names, shiftKey, n)[kana] == table[kana]
    ensures kana !in table ==> (kana in ShiftConversion(table, scan, names, shiftKey, n) <==> ShiftKept(kana) && kana in scan[..n])
  {
    if n > 0 {
      ShiftConversionKeys(table, scan, names, shiftKey, n - 1, kana);
      assert scan[..n] == scan[..n - 1] + [scan[n - 1]];
    }
  }

  /** An added entry is held with the shift key and names the key of the
      kana's first occurrence in the layer. */
  lemma {:induction false} ShiftConversionAt(table: map<Symbol, Conversion>, scan: seq<Symbol>, names: seq<string>, shiftKey: string, n: nat, k: nat)
    requires k < n <= |scan| == |names| && ShiftKept(scan[k]) && scan[k] !in table && scan[k] !in scan[..k]
    ensures scan[k] in ShiftConversion(table, scan, names, shiftKey, n)
    ensures ShiftConversion(table, scan, names, shiftKey, n)[scan[k]] == Conversion(names[k], Some(shiftKey))
  {
    ShiftConversionKeys(table, scan, names, shiftKey, n, scan[k]);
    assert scan[..n][k] == scan[k];
    if k < n - 1 {
      ShiftConversionAt(table, scan, names, shiftKey, n - 1, k);
      ShiftConversionKeys(table, scan, names, shiftKey, n - 1, scan[k]);
    } else {
      ShiftConversionKeys(table, scan, names, shiftKey, k, scan[k]);
    }
  }

  /** Earlier layers win: a kana typed on layer 0 keeps its unshifted entry; one
      typed on layer 1 but not on layer 0 is entered held with the ☆ key; one
      typed only on layer 2 is entered held with the ★ key. */
  lemma EarlierLayersWin(cells: seq<Symbol>, kana: Symbol)
    requires WellShaped(cells)
    ensures BaseKept(kana) && kana in LayerScan(cells, 0) ==>
      kana in ConversionTable(cells) && ConversionTable(cells)[kana].shift.None?
    ensures kana !in LayerScan(cells, 0) && ShiftKept(kana) && kana in LayerScan(cells, 1) ==>
      kana in ConversionTable(cells) && ConversionTable(cells)[kana].shift == Some(CircleKey(cells, KeysFor(false)))
    ensures kana !in LayerScan(cells, 0) && kana !in LayerScan(cells, 1) && ShiftKept(kana) && kana in LayerScan(cells, 2) ==>
      kana in ConversionTable(cells) && ConversionTable(cells)[kana].shift == Some(StarKey(cells, KeysFor(false)))
    ensures kana in ConversionTable(cells) <==>
      (BaseKept(kana) && kana in LayerScan(cells, 0)) || (ShiftKept(kana) && (kana in LayerScan(cells, 1) || kana in LayerScan(cells, 2)))
  {
    var keys := KeysFor(false);
    var names := KeyNames(keys);
    var s0, s1, s2 := LayerScan(cells, 0), LayerScan(cells, 1), LayerScan(cells, 2);
    assert s0[..SCAN] == s0 && s1[..SCAN] == s1 && s2[..SCAN] == s2;
    var layer0 := BaseConversion(s0, names, SCAN);
    var layer1 := ShiftConversion(layer0, s1, names, CircleKey(cells, keys), SCAN);
    BaseConversionKeys(s0, names, SCAN, kana);
    ShiftConversionKeys(layer0, s1, names, CircleKey(cells, keys), SCAN, kana);
    ShiftConversionKeys(layer1, s2, names, StarKey(cells, keys), SCAN, kana);
    if kana !in layer0 && kana in layer1 {
      ShiftEntriesHeld(layer0, s1, names, CircleKey(cells, keys), SCAN, kana);
    }
    if kana !in layer1 && kana in ConversionTable(cells) {
      ShiftEntriesHeld(layer1, s2, names, StarKey(cells, keys), SCAN, kana);
    }
  }

  /** An entry a shifted layer adds is held with that layer's shift key. */
  lemma {:induction false} ShiftEntriesHeld(table: map<Symbol, Conversion>, scan: seq<Symbol>, names: seq<string>, shiftKey: string, n: nat, kana: Symbol)
    requires n <= |scan| == |names|
    requires kana !in table && kana in ShiftConversion(table, scan, names, shiftKey, n)
    ensures ShiftConversion(table, scan, names, shiftKey, n)[kana].shift == Some(shiftKey)
  {
    if kana in ShiftConversion(table, scan, names, shiftKey, n - 1) {
      ShiftEntriesHeld(table, scan, names, shiftKey, n - 1, kana);
    }
  }

  // ---------------------------------------------------------------------------
  // Karabiner key codes
  // ---------------------------------------------------------------------------

  /** The Karabiner key_code for one romaji character. */
  function KeyCode(c: char): (code: string)
    ensures 'a' <= c <= 'z' ==> code == [c]
    ensures c == '-' ==> code == "hyphen"
  {
    if 'a' <= c <= 'z' then [c]
    else if c == '-' then "hyphen"
    else if c == ';' then "semicolon"
    else if c == ',' then "comma"
    else if c == '.' then "period"
    else if c == '/' then "slash"
    else [c]
  }

  /** The character a key_code stands for. */
  function KeyCodeChar(code: string): char
  {
    if code == "hyphen" then '-'
    else if code == "semicolon" then ';'
    else if code == "comma" then ','
    else if code == "period" then '.'
    else if code == "slash" then '/'
    else if |code| == 1 then code[0]
    else ' '
  }

  /** No two characters share a key code. */
  lemma KeyCodeInverse(c: char)
    ensures KeyCodeChar(KeyCode(c)) == c
  {
    if !('a' <= c <= 'z') && c != '-' && c != ';' && c != ',' && c != '.' && c != '/' {
      assert |KeyCode(c)| == 1;
    }
  }

  /** The key codes typed for a romaji spelling, one per character. */
  function RomajiToKeycode(romaji: string): (codes: seq<string>)
    ensures |codes| == |romaji|
    ensures forall i :: 0 <= i < |romaji| ==> codes[i] == KeyCode(romaji[i])
  {
    if |romaji| == 0 then [] else [KeyCode(romaji[0])] + RomajiToKeycode(romaji[1..])
  }

  function KeycodesToRomaji(codes: seq<string>): (romaji: string)
    ensures |romaji| == |codes|
    ensures forall i :: 0 <= i < |codes| ==> romaji[i] == KeyCodeChar(codes[i])
  {
    if |codes| == 0 then "" else [KeyCodeChar(codes[0])] + KeycodesToRomaji(codes[1..])
  }

  /** The key codes spell the romaji back. */
  lemma KeycodeRoundTrip(romaji: string)
    ensures KeycodesToRomaji(RomajiToKeycode(romaji)) == romaji
  {
    var back := KeycodesToRomaji(RomajiToKeycode(romaji));
    forall i | 0 <= i < |romaji| ensures back[i] == romaji[i] {
      KeyCodeInverse(romaji[i]);
    }
  }

  // ---------------------------------------------------------------------------
  // Kana to romaji
  // ---------------------------------------------------------------------------

  /** The plain syllables of the table. */
  function SeionRomaji(c: char): (romaji: Option<string>)
    ensures romaji.Some? ==> TypedOnLetters(romaji.value)
  {
    match c
    case 'あ' => Some("a")
    case 'い' => Some("i")
    case 'う' => Some("u")
    case 'え' => Some("e")
    case 'お' => Some("o")
    case 'か' => Some("ka")
    case 'き' => Some("ki")
    case 'く' => Some("ku")
    case 'け' => Some("ke")
    case 'こ' => Some("ko")
    case 'さ' => Some("sa")
    case 'し' => Some("si")
    case 'す' => Some("su")
    case 'せ' => Some("se")
    case 'そ' => Some("so")
    case 'た' => Some("ta")
    case 'ち' => Some("ti")
    case 'つ' => Some("tu")
    case 'て' => Some("te")
    case 'と' => Some("to")
    case 'な' => Some("na")
    case 'に' => Some("ni")
    case 'ぬ' => Some("nu")
    case 'ね' => Some("ne")
    case 'の' => Some("no")
    case 'は' => Some("ha")
    case 'ひ' => Some("hi")
    case 'ふ' => Some("fu")
    case 'へ' => Some("he")
    case 'ほ' => Some("ho")
    case 'ま' => Some("ma")
    case 'み' => Some("mi")
    case 'む' => Some("mu")
    case 'め' => Some("me")
    case 'も' => Some("mo")
    case 'や' => Some("ya")
    case 'ゆ' => Some("yu")
    case 'よ' => Some("yo")
    case 'ら' => Some("ra")
    case 'り' => Some("ri")
    case 'る' => Some("ru")
    case 'れ' => Some("re")
    case 'ろ' => Some("ro")
    case 'わ' => Some("wa")
    case 'を' => Some("wo")
    case 'ん' => Some("nn")
    case _ => None
  }

  /** The voiced syllables of the table. */
  function DakuonRomaji(c: char): (romaji: Option<string>)
    ensures romaji.Some? ==> TypedOnLetters(romaji.value)
  {
    match c
    case 'が' => Some("ga")
    case 'ぎ' => Some("gi")
    case 'ぐ' => Some("gu")
    case 'げ' => Some("ge")
    case 'ご' => Some("go")
    case 'ざ' => Some("za")
    case 'じ' => Some("zi")
    case 'ず' => Some("zu")
    case 'ぜ' => Some("ze")
    case 'ぞ' => Some("zo")
    case 'だ' => Some("da")
    case 'ぢ' => Some("di")
    case 'づ' => Some("du")
    case 'で' => Some("de")
    case 'ど' => Some("do")
    case 'ば' => Some("ba")
    case 'び' => Some("bi")
    case 'ぶ' => Some("bu")
    case 'べ' => Some("be")
    case 'ぼ' => Some("bo")
    case _ => None
  }

  /** The p-syllables of the table. */
  function HandakuonRomaji(c: char): (romaji: Option<string>)
    ensures romaji.Some? ==> TypedOnLetters(romaji.value)
  {
    match c
    case 'ぱ' => Some("pa")
    case 'ぴ' => Some("pi")
    case 'ぷ' => Some("pu")
    case 'ぺ' => Some("pe")
    case 'ぽ' => Some("po")
    case _ => None
  }

  /** The small kana of the table. */
  function KogakiRomaji(c: char): (romaji: Option<string>)
    ensures romaji.Some? ==> TypedOnLetters(romaji.value)
  {
    match c
    case 'ぁ' => Some("xa")
    case 'ぃ' => Some("xi")
    case 'ぅ' => Some("xu")
    case 'ぇ' => Some("xe")
    case 'ぉ' => Some("xo")
    case 'ゃ' => Some("xya")
    case 'ゅ' => Some("xyu")
    case 'ょ' => Some("xyo")
    case 'っ' => Some("xtu")
    case _ => None
  }

  /** The long-vowel mark and vu of the table. */
  function SpecialRomaji(c: char): (romaji: Option<string>)
    ensures romaji.Some? ==> TypedOnLetters(romaji.value)
  {
    match c
    case 'ー' => Some("-")
    case 'ゔ' => Some("vu")
    case 'ヴ' => Some("vu")
    case _ => None
  }

  /** The romaji `kana_to_romaji` maps a kana to, if any (the groups hold
      disjoint kana, so the order of the lookups does not matter). */
  function KanaToRomaji(c: char): (romaji: Option<string>)
    ensures romaji.Some? ==> TypedOnLetters(romaji.value)
  {
    if SeionRomaji(c).Some? then SeionRomaji(c) else if DakuonRomaji(c).Some? then DakuonRomaji(c) else if HandakuonRomaji(c).Some? then HandakuonRomaji(c) else if KogakiRomaji(c).Some? then KogakiRomaji(c) else SpecialRomaji(c)
  }

  /** Romaji typed with the lower-case letters and the hyphen only. */
  predicate TypedOnLetters(romaji: string)
  {
    |romaji| >= 1 && forall i :: 0 <= i < |romaji| ==> 'a' <= romaji[i] <= 'z' || romaji[i] == '-'
  }

  /** Every romaji of the table is typed on letter keys and the hyphen key:
      each of its key codes is a letter or "hyphen". */
  lemma KanaToRomajiKeycodes(c: char)
    requires KanaToRomaji(c).Some?
    ensures var codes := RomajiToKeycode(KanaToRomaji(c).value);
      |codes| >= 1 && forall i :: 0 <= i < |codes| ==> codes[i] == "hyphen" || (|codes[i]| == 1 && 'a' <= codes[i][0] <= 'z')
  {
  }
}
