/** Looking symbols up in a layout: the first cell holding a symbol, the index
    from first characters to positions, and the duplicate/missing/extra check. */
module LayoutSearch {
  import opened Common
  import opened Layouts

  // ---------------------------------------------------------------------------
  // find_char
  // ---------------------------------------------------------------------------

  /** `Layout::find_char`: the first cell, in row-major order, that holds exactly
      `c`. */
  method FindChar(layout: Layout, c: Symbol) returns (r: Option<KeyPos>)
    requires WellShaped(layout.cells)
    ensures r.None? <==> forall i :: 0 <= i < NUM_CELLS ==> layout.cells[i] != c
    ensures r.Some? ==> r.value.Valid() && layout.cells[IndexOf(r.value)] == c
    ensures r.Some? ==> forall i :: 0 <= i < IndexOf(r.value) ==> layout.cells[i] != c
  {
    for i := 0 to NUM_CELLS
      invariant forall j :: 0 <= j < i ==> layout.cells[j] != c
    {
      if layout.cells[i] == c {
        return Some(PosAt(i));
      }
    }
    return None;
  }

  // ---------------------------------------------------------------------------
  // build_char_map
  // ---------------------------------------------------------------------------

  /** A cell is indexed under its first character unless it is empty or starts
      with the full-width space or NUL. */
  predicate KeyedBy(s: Symbol, c: char)
  {
    |s| > 0 && s[0] == c && c != '\U{3000}' && c != '\0'
  }

  /** `m` maps each first character to the first position, in row-major
      order, of a cell starting with it. */
  ghost predicate IsCharMap(cells: seq<Symbol>, m: map<char, KeyPos>)
    requires WellShaped(cells)
  {
    && (forall c :: c in m <==> exists i :: 0 <= i < NUM_CELLS && KeyedBy(cells[i], c))
    && (forall c :: c in m ==> m[c].Valid() && KeyedBy(cells[IndexOf(m[c])], c))
    && (forall c :: c in m ==> forall i :: 0 <= i < IndexOf(m[c]) ==> !KeyedBy(cells[i], c))
  }

  /** `Layout::build_char_map`. */
  method BuildCharMap(layout: Layout) returns (m: map<char, KeyPos>)
    requires WellShaped(layout.cells)
    ensures IsCharMap(layout.cells, m)
  {
    m := map[];
    for i := 0 to NUM_CELLS
      invariant forall c :: c in m <==> exists j :: 0 <= j < i && KeyedBy(layout.cells[j], c)
      invariant forall c :: c in m ==> m[c].Valid() && IndexOf(m[c]) < i && KeyedBy(layout.cells[IndexOf(m[c])], c)
      invariant forall c :: c in m ==> forall j :: 0 <= j < IndexOf(m[c]) ==> !KeyedBy(layout.cells[j], c)
    {
      var s := layout.cells[i];
      if |s| > 0 {
        var c := s[0];
        if c != '\U{3000}' && c != '\0' && c !in m {
          m := m[c := PosAt(i)];
        }
      }
    }
  }

  /** The index is determined by the cells: two maps that both satisfy
      `IsCharMap` are the same map. */
  lemma CharMapUnique(cells: seq<Symbol>, m1: map<char, KeyPos>, m2: map<char, KeyPos>)
    requires WellShaped(cells) && IsCharMap(cells, m1) && IsCharMap(cells, m2)
    ensures m1 == m2
  {
    assert m1.Keys == m2.Keys;
    forall c | c in m1
      ensures m1[c] == m2[c]
    {
      var i1, i2 := IndexOf(m1[c]), IndexOf(m2[c]);
      assert !(i1 < i2) && !(i2 < i1);
      PosAtIndexOf(m1[c]);
      PosAtIndexOf(m2[c]);
    }
  }

  // ---------------------------------------------------------------------------
  // validate
  // ---------------------------------------------------------------------------

  /** The outcome of `Layout::validate`. Duplicates map each symbol that occupies
      more than one free cell to its positions in row-major order. */
  datatype ValidationResult = ValidationResult(
    duplicates: map<Symbol, seq<KeyPos>>,
    missing: set<Symbol>,
    extra: set<Symbol>,
    totalFound: nat,
    totalExpected: nat)
  {
    /** `ValidationResult::is_valid`: no duplicates. */
    predicate IsValid()
    {
      |duplicates| == 0
    }
  }

  /** A scanned cell that holds a symbol (neither the full-width space nor empty). */
  predicate Occupied(s: Symbol)
  {
    s != BLANK && s != ""
  }

  /** A free cell holding the symbol `s`. */
  predicate Holds(cells: seq<Symbol>, j: nat, s: Symbol)
    requires WellShaped(cells) && j < NUM_CELLS
  {
    FreeAt(j) && Occupied(cells[j]) && cells[j] == s
  }

  /** The positions of the free cells below `n` that hold `s`, in row-major order. */
  function PositionsOf(cells: seq<Symbol>, s: Symbol, n: nat): seq<KeyPos>
    requires WellShaped(cells) && n <= NUM_CELLS
  {
    if n == 0 then []
    else PositionsOf(cells, s, n - 1) + (if Holds(cells, n - 1, s) then [PosAt(n - 1)] else [])
  }

  /** The symbols in the free cells below `n`. */
  function FoundUpTo(cells: seq<Symbol>, n: nat): set<Symbol>
    requires WellShaped(cells) && n <= NUM_CELLS
  {
    if n == 0 then {}
    else FoundUpTo(cells, n - 1) + (if FreeAt(n - 1) && Occupied(cells[n - 1]) then {cells[n - 1]} else {})
  }

  /** The result `validate` computes, stated over whole sets and maps. */
  function ValidateSpec(cells: seq<Symbol>, expectedChars: seq<Symbol>): ValidationResult
    requires WellShaped(cells)
  {
    var found := FoundUpTo(cells, NUM_CELLS);
    var expected := set s | s in expectedChars;
    ValidationResult(
      map s | s in found && |PositionsOf(cells, s, NUM_CELLS)| > 1 :: PositionsOf(cells, s, NUM_CELLS),
      expected - found,
      found - expected,
      |found|,
      |expected|)
  }

  /** What the scan has recorded after visiting the cells below `i`. */
  ghost predicate Scanned(cells: seq<Symbol>, i: nat, charCounts: map<Symbol, seq<KeyPos>>, foundChars: set<Symbol>)
    requires WellShaped(cells) && i <= NUM_CELLS
  {
    && foundChars == FoundUpTo(cells, i)
    && (forall s :: s in charCounts <==> s in foundChars)
    && (forall s :: s in charCounts ==> charCounts[s] == PositionsOf(cells, s, i))
    && (forall s :: s !in foundChars ==> PositionsOf(cells, s, i) == [])
  }

  /** The scan of `Layout::validate`: visit every cell in row-major order,
      skip fixed and blank positions and unoccupied cells, and record each
      symbol with the positions holding it. */
  method ScanFreeCells(cells: seq<Symbol>) returns (charCounts: map<Symbol, seq<KeyPos>>, foundChars: set<Symbol>)
    requires WellShaped(cells)
    ensures foundChars == FoundUpTo(cells, NUM_CELLS)
    ensures forall s :: s in charCounts <==> s in foundChars
    ensures forall s :: s in charCounts ==> charCounts[s] == PositionsOf(cells, s, NUM_CELLS)
  {
    charCounts := map[];
    foundChars := {};
    for i := 0 to NUM_CELLS
      invariant Scanned(cells, i, charCounts, foundChars)
    {
      if IsReservedCell(i) {
        ScanSkips(cells, i, charCounts, foundChars);
        continue;
      }
      var s := cells[i];
      if s != BLANK && s != "" {
        var positions := if s in charCounts then charCounts[s] else [];
        ScanRecords(cells, i, charCounts, foundChars);
        charCounts := charCounts[s := positions + [PosAt(i)]];
        foundChars := foundChars + {s};
      } else {
        ScanSkips(cells, i, charCounts, foundChars);
      }
    }
  }

  /** A reserved or unoccupied cell adds nothing to the scan. */
  lemma ScanSkips(cells: seq<Symbol>, i: nat, charCounts: map<Symbol, seq<KeyPos>>, foundChars: set<Symbol>)
    requires WellShaped(cells) && i < NUM_CELLS
    requires !FreeAt(i) || !Occupied(cells[i])
    requires Scanned(cells, i, charCounts, foundChars)
    ensures Scanned(cells, i + 1, charCounts, foundChars)
  {
  }

  /** An occupied free cell adds its symbol and appends its position. */
  lemma ScanRecords(cells: seq<Symbol>, i: nat, charCounts: map<Symbol, seq<KeyPos>>, foundChars: set<Symbol>)
    requires WellShaped(cells) && i < NUM_CELLS
    requires FreeAt(i) && Occupied(cells[i])
    requires Scanned(cells, i, charCounts, foundChars)
    ensures Scanned(cells, i + 1,
                    charCounts[cells[i] := (if cells[i] in charCounts then charCounts[cells[i]] else []) + [PosAt(i)]],
                    foundChars + {cells[i]})
  {
  }

  /** `Layout::validate`: group the free cells by symbol, keep the symbols
      with more than one position, then compare with the expected list. */
  method Validate(layout: Layout, expectedChars: seq<Symbol>) returns (r: ValidationResult)
    requires WellShaped(layout.cells)
    ensures r == ValidateSpec(layout.cells, expectedChars)
  {
    var charCounts, foundChars := ScanFreeCells(layout.cells);
    var duplicates := map s | s in charCounts && |charCounts[s]| > 1 :: charCounts[s];
    DuplicatesOfCounts(layout.cells, charCounts);
    var expected := set s | s in expectedChars;
    r := ValidationResult(duplicates, expected - foundChars, foundChars - expected,
                          |foundChars|, |expected|);
  }

  /** Filtering the grouped positions of the whole scan gives the duplicates of
      the specification. */
  lemma DuplicatesOfCounts(cells: seq<Symbol>, charCounts: map<Symbol, seq<KeyPos>>)
    requires WellShaped(cells)
    requires forall s :: s in charCounts <==> s in FoundUpTo(cells, NUM_CELLS)
    requires forall s :: s in charCounts ==> charCounts[s] == PositionsOf(cells, s, NUM_CELLS)
    ensures (map s | s in charCounts && |charCounts[s]| > 1 :: charCounts[s]) ==
            (map s | s in FoundUpTo(cells, NUM_CELLS) && |PositionsOf(cells, s, NUM_CELLS)| > 1 ::
               PositionsOf(cells, s, NUM_CELLS))
  {
  }

  // ---------------------------------------------------------------------------
  // What validate means
  // ---------------------------------------------------------------------------

  /** A symbol is found exactly when some free cell holds it. */
  lemma {:induction false} FoundUpToHolds(cells: seq<Symbol>, n: nat, s: Symbol)
    requires WellShaped(cells) && n <= NUM_CELLS
    ensures s in FoundUpTo(cells, n) <==> exists j :: 0 <= j < n && Holds(cells, j, s)
  {
    if n > 0 {
      FoundUpToHolds(cells, n - 1, s);
      if Holds(cells, n - 1, s) {
        assert s in FoundUpTo(cells, n);
      }
    }
  }

  /** A symbol has a recorded position exactly when some free cell below `n`
      holds it. */
  lemma {:induction false} PositionsOfNonEmpty(cells: seq<Symbol>, s: Symbol, n: nat)
    requires WellShaped(cells) && n <= NUM_CELLS
    ensures |PositionsOf(cells, s, n)| >= 1 <==> exists j :: 0 <= j < n && Holds(cells, j, s)
  {
    if n > 0 {
      PositionsOfNonEmpty(cells, s, n - 1);
    }
  }

  /** A symbol has two recorded positions exactly when two different free cells
      below `n` hold it. */
  lemma {:induction false} PositionsOfTwice(cells: seq<Symbol>, s: Symbol, n: nat)
    requires WellShaped(cells) && n <= NUM_CELLS
    ensures |PositionsOf(cells, s, n)| > 1 <==>
            exists i, j :: 0 <= i < j < n && Holds(cells, i, s) && Holds(cells, j, s)
  {
    if n > 0 {
      PositionsOfTwice(cells, s, n - 1);
      PositionsOfNonEmpty(cells, s, n - 1);
      if Holds(cells, n - 1, s) && |PositionsOf(cells, s, n - 1)| == 1 {
        var i :| 0 <= i < n - 1 && Holds(cells, i, s);
        assert Holds(cells, i, s) && Holds(cells, n - 1, s);
      }
      if exists i, j :: 0 <= i < j < n && Holds(cells, i, s) && Holds(cells, j, s) {
        var i, j :| 0 <= i < j < n && Holds(cells, i, s) && Holds(cells, j, s);
        if j < n - 1 {
          assert |PositionsOf(cells, s, n - 1)| > 1;
        } else {
          assert |PositionsOf(cells, s, n - 1)| >= 1;
        }
      }
    }
  }

  /** A layout passes the check exactly when no symbol occupies two free cells. */
  lemma ValidIffNoRepeats(cells: seq<Symbol>, expectedChars: seq<Symbol>)
    requires WellShaped(cells)
    ensures ValidateSpec(cells, expectedChars).IsValid() <==>
            forall i, j :: 0 <= i < j < NUM_CELLS && FreeAt(i) && FreeAt(j) && Occupied(cells[i]) ==>
              cells[i] != cells[j]
  {
    var r := ValidateSpec(cells, expectedChars);
    var found := FoundUpTo(cells, NUM_CELLS);
    if r.IsValid() {
      forall i, j | 0 <= i < j < NUM_CELLS && FreeAt(i) && FreeAt(j) && Occupied(cells[i])
        ensures cells[i] != cells[j]
      {
        if cells[i] == cells[j] {
          var s := cells[i];
          assert Holds(cells, i, s) && Holds(cells, j, s);
          PositionsOfTwice(cells, s, NUM_CELLS);
          FoundUpToHolds(cells, NUM_CELLS, s);
          assert false;
        }
      }
    } else {
      var s :| s in r.duplicates;
      PositionsOfTwice(cells, s, NUM_CELLS);
      var i, j :| 0 <= i < j < NUM_CELLS && Holds(cells, i, s) && Holds(cells, j, s);
      assert FreeAt(i) && FreeAt(j) && Occupied(cells[i]) && cells[i] == cells[j];
    }
  }

  /** A duplicate's positions are free cells holding it, in strictly increasing
      row-major order. */
  lemma {:induction false} PositionsOfSound(cells: seq<Symbol>, s: Symbol, n: nat)
    requires WellShaped(cells) && n <= NUM_CELLS
    ensures forall k :: 0 <= k < |PositionsOf(cells, s, n)| ==>
              PositionsOf(cells, s, n)[k].Valid() && IndexOf(PositionsOf(cells, s, n)[k]) < n &&
              Holds(cells, IndexOf(PositionsOf(cells, s, n)[k]), s)
    ensures forall k, l :: 0 <= k < l < |PositionsOf(cells, s, n)| ==>
              IndexOf(PositionsOf(cells, s, n)[k]) < IndexOf(PositionsOf(cells, s, n)[l])
  {
    if n > 0 {
      PositionsOfSound(cells, s, n - 1);
    }
  }

  /** Missing symbols are the expected ones no free cell holds; extra symbols are
      the held ones nobody expected; the totals count distinct symbols. */
  lemma ValidateMissingExtra(cells: seq<Symbol>, expectedChars: seq<Symbol>, s: Symbol)
    requires WellShaped(cells)
    ensures s in ValidateSpec(cells, expectedChars).missing <==>
            s in expectedChars && forall j :: 0 <= j < NUM_CELLS ==> !Holds(cells, j, s)
    ensures s in ValidateSpec(cells, expectedChars).extra <==>
            s !in expectedChars && exists j :: 0 <= j < NUM_CELLS && Holds(cells, j, s)
    ensures ValidateSpec(cells, expectedChars).totalFound + |ValidateSpec(cells, expectedChars).missing| ==
            ValidateSpec(cells, expectedChars).totalExpected + |ValidateSpec(cells, expectedChars).extra|
  {
    FoundUpToHolds(cells, NUM_CELLS, s);
    var found := FoundUpTo(cells, NUM_CELLS);
    var expected := set t | t in expectedChars;
    assert found == (found * expected) + (found - expected);
    assert expected == (found * expected) + (expected - found);
    assert (found * expected) !! (found - expected);
    assert (found * expected) !! (expected - found);
  }
}
