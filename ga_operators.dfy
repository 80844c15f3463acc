/** The genetic operators of the optimiser, stated over a layout's cells:
    which cells the operators visit, what duplicate repair writes, what
    uniform crossover and swap mutation produce from the generator's draws,
    which candidate a tournament keeps, and how a population is ordered. */
module GaOperators {
  import opened Common
  import opened Layouts
  import opened Random

  // ---------------------------------------------------------------------------
  // The cells the operators visit
  // ---------------------------------------------------------------------------

  /** The operators loop over columns 0-9 of every row only: the eleventh key
      of the middle row is never read or written by them. */
  predicate InGaColumns(i: nat)
    requires i < NUM_CELLS
  {
    i !in ELEVENTH_KEYS
  }

  /** The flat indices of the eleventh key of the middle row, one per layer. */
  const ELEVENTH_KEYS: set<nat> := {20, 51, 82, 113}

  /** The cells outside columns 0-9 are exactly the eleventh keys. */
  lemma InGaColumnsAt(i: nat)
    requires i < NUM_CELLS
    ensures InGaColumns(i) <==> PosAt(i).col < COLS
  {
  }

  /** `Layout::is_fixed_position` at a flat index. */
  function IsFixedCell(i: nat): (r: bool)
    requires i < NUM_CELLS
    ensures r <==> FixedAt(i)
  {
    FixedIndex(i);
    var p := PosAt(i);
    IsFixedPosition(p.layer, p.row, p.col)
  }

  /** A cell crossover draws a coin for and mutation may move: in columns 0-9
      and not fixed. The forced-blank cells of columns 0-9 are among them. */
  predicate Movable(i: nat)
    requires i < NUM_CELLS
  {
    InGaColumns(i) && !FixedAt(i)
  }

  /** The movable cells below `n`, in row-major order. */
  function MovableBelow(n: nat): (r: seq<nat>)
    requires n <= NUM_CELLS
    ensures forall k :: 0 <= k < |r| ==> r[k] < n && Movable(r[k])
    ensures forall a, b :: 0 <= a < b < |r| ==> r[a] < r[b]
  {
    if n == 0 then [] else MovableBelow(n - 1) + (if Movable(n - 1) then [n - 1] else [])
  }

  // ---------------------------------------------------------------------------
  // Duplicate repair
  // ---------------------------------------------------------------------------

  /** The symbols duplicate detection passes over: the two shift keys, the
      punctuation, the full-width semicolon, the middle dot, the blank and NUL. */
  const REPAIR_SKIPPED: set<Symbol> := {"☆", "★", "、", "。", "；", "・", BLANK, NUL}

  /** Cell `j` takes part in duplicate detection. */
  predicate Counted(cells: seq<Symbol>, j: nat)
  {
    j < |cells| && j < NUM_CELLS && InGaColumns(j) && cells[j] !in REPAIR_SKIPPED
  }

  /** The set `seen` once the cells below `n` have been scanned. */
  function SeenBelow(cells: seq<Symbol>, n: nat): set<Symbol>
  {
    if n == 0 then {} else SeenBelow(cells, n - 1) + (if Counted(cells, n - 1) then {cells[n - 1]} else {})
  }

  /** The list `duplicates` once the cells below `n` have been scanned: the
      counted cells whose symbol had been seen already. */
  function DuplicatesBelow(cells: seq<Symbol>, n: nat): (r: seq<nat>)
    ensures forall k :: 0 <= k < |r| ==> r[k] < n && r[k] < |cells|
  {
    if n == 0 then []
    else
      DuplicatesBelow(cells, n - 1)
      + (if Counted(cells, n - 1) && cells[n - 1] in SeenBelow(cells, n - 1) then [n - 1] else [])
  }

  function Seen(cells: seq<Symbol>): set<Symbol>
  {
    SeenBelow(cells, |cells|)
  }

  function Duplicates(cells: seq<Symbol>): (r: seq<nat>)
    ensures forall k :: 0 <= k < |r| ==> r[k] < |cells|
  {
    DuplicatesBelow(cells, |cells|)
  }

  /** The list `missing`: the symbols of `chars` that were not seen, in list
      order (a symbol listed twice in `chars` is missing twice). */
  function MissingFrom(chars: seq<Symbol>, seen: set<Symbol>): seq<Symbol>
  {
    if |chars| == 0 then []
    else
      var last := chars[|chars| - 1];
      MissingFrom(chars[..|chars| - 1], seen) + (if last in seen then [] else [last])
  }

  /** The draws the repair of `cells` takes: its shuffle of the missing
      symbols draws once per index from the last down to 1. */
  function RepairDraws(chars: seq<Symbol>, cells: seq<Symbol>): nat
  {
    var n := |MissingFrom(chars, Seen(cells))|;
    if n == 0 then 0 else n - 1
  }

  /** What the k-th duplicate receives: the k-th missing symbol, or a blank once
      the missing symbols are used up. */
  function Replacement(missing: seq<Symbol>, k: nat): Symbol
  {
    if k < |missing| then missing[k] else BLANK
  }

  /** The cells once the first `k` duplicates have been overwritten. */
  function OverwriteFirst(cells: seq<Symbol>, dups: seq<nat>, missing: seq<Symbol>, k: nat): (r: seq<Symbol>)
    requires k <= |dups| && forall d :: 0 <= d < |dups| ==> dups[d] < |cells|
    ensures |r| == |cells|
  {
    if k == 0 then cells
    else OverwriteFirst(cells, dups, missing, k - 1)[dups[k - 1] := Replacement(missing, k - 1)]
  }

  /** The cells after `repair_layout`, given the order `missing` was shuffled into. */
  function Repaired(cells: seq<Symbol>, missing: seq<Symbol>): (r: seq<Symbol>)
    ensures |r| == |cells|
  {
    OverwriteFirst(cells, Duplicates(cells), missing, |Duplicates(cells)|)
  }

  /** `seen` holds exactly the symbols of the counted cells scanned so far. */
  lemma {:induction false} SeenBelowMembers(cells: seq<Symbol>, n: nat)
    ensures forall s :: s in SeenBelow(cells, n) <==> exists j :: 0 <= j < n && Counted(cells, j) && cells[j] == s
  {
    if n > 0 {
      SeenBelowMembers(cells, n - 1);
    }
  }

  /** The duplicates are listed in increasing order, and a counted cell is
      listed exactly when its symbol occurs at an earlier counted cell. */
  lemma {:induction false} DuplicatesFacts(cells: seq<Symbol>, n: nat)
    ensures forall a, b :: 0 <= a < b < |DuplicatesBelow(cells, n)| ==> DuplicatesBelow(cells, n)[a] < DuplicatesBelow(cells, n)[b]
    ensures forall k :: 0 <= k < |DuplicatesBelow(cells, n)| ==>
              Counted(cells, DuplicatesBelow(cells, n)[k])
              && cells[DuplicatesBelow(cells, n)[k]] in SeenBelow(cells, DuplicatesBelow(cells, n)[k])
    ensures forall j :: 0 <= j < n && Counted(cells, j) && cells[j] in SeenBelow(cells, j) ==> j in DuplicatesBelow(cells, n)
  {
    if n > 0 {
      DuplicatesFacts(cells, n - 1);
    }
  }

  /** Overwriting touches exactly the listed cells: the a-th listed cell holds
      the a-th replacement and every other cell is kept. */
  lemma {:induction false} OverwriteFacts(cells: seq<Symbol>, dups: seq<nat>, missing: seq<Symbol>, k: nat)
    requires k <= |dups| && forall d :: 0 <= d < |dups| ==> dups[d] < |cells|
    requires forall a, b :: 0 <= a < b < |dups| ==> dups[a] < dups[b]
    ensures forall a :: 0 <= a < k ==> OverwriteFirst(cells, dups, missing, k)[dups[a]] == Replacement(missing, a)
    ensures forall i :: 0 <= i < |cells| && i !in dups[..k] ==> OverwriteFirst(cells, dups, missing, k)[i] == cells[i]
  {
    if k > 0 {
      OverwriteFacts(cells, dups, missing, k - 1);
      assert forall i :: i in dups[..k - 1] ==> i in dups[..k];
    }
  }

  /** `repair_layout` rewrites only the later duplicates: a cell that is not
      counted (a skipped symbol, or column 10) and the first occurrence of
      every symbol keep their value, and the k-th duplicate receives the k-th
      missing symbol or a blank. */
  lemma RepairWrites(cells: seq<Symbol>, missing: seq<Symbol>)
    ensures forall i :: 0 <= i < |cells| && !(Counted(cells, i) && cells[i] in SeenBelow(cells, i)) ==>
              Repaired(cells, missing)[i] == cells[i]
    ensures forall k :: 0 <= k < |Duplicates(cells)| ==>
              Repaired(cells, missing)[Duplicates(cells)[k]] == Replacement(missing, k)
  {
    var dups := Duplicates(cells);
    DuplicatesFacts(cells, |cells|);
    OverwriteFacts(cells, dups, missing, |dups|);
    assert dups[..|dups|] == dups;
    forall i | 0 <= i < |cells| && !(Counted(cells, i) && cells[i] in SeenBelow(cells, i))
      ensures Repaired(cells, missing)[i] == cells[i]
    {
    }
  }

  /** `missing` holds the listed symbols that were not seen, and has no repeats
      when the list has none. */
  lemma {:induction false} MissingFromFacts(chars: seq<Symbol>, seen: set<Symbol>)
    ensures forall s :: s in MissingFrom(chars, seen) <==> s in chars && s !in seen
    ensures NoRepeats(chars) ==> NoRepeats(MissingFrom(chars, seen))
  {
    if |chars| > 0 {
      var init := chars[..|chars| - 1];
      var last := chars[|chars| - 1];
      MissingFromFacts(init, seen);
      assert chars == init + [last];
      if NoRepeats(chars) {
        assert NoRepeats(init) by {
          forall a, b | 0 <= a < b < |init| ensures init[a] != init[b] {
            assert init[a] == chars[a] && init[b] == chars[b];
          }
        }
        if last !in seen {
          var m := MissingFrom(init, seen);
          assert last !in init by {
            forall k | 0 <= k < |init| ensures init[k] != last {
              assert init[k] == chars[k];
            }
          }
          var r := m + [last];
          forall a, b | 0 <= a < b < |r| ensures r[a] != r[b] {
            if b == |m| {
              assert r[a] == m[a] && m[a] in m;
            } else {
              assert r[a] == m[a] && r[b] == m[b];
            }
          }
        }
      }
    }
  }

  /** After repair, no symbol that duplicate detection counts occurs at two
      counted cells, provided the replacements have no repeats and none of
      them was seen. */
  lemma RepairedUnique(cells: seq<Symbol>, missing: seq<Symbol>)
    requires NoRepeats(missing)
    requires forall k :: 0 <= k < |missing| ==> missing[k] !in Seen(cells)
    ensures forall i, j :: 0 <= i < j < |cells| && Counted(Repaired(cells, missing), i) && Counted(Repaired(cells, missing), j) ==>
              Repaired(cells, missing)[i] != Repaired(cells, missing)[j]
  {
    var r := Repaired(cells, missing);
    var dups := Duplicates(cells);
    RepairWrites(cells, missing);
    DuplicatesFacts(cells, |cells|);
    SeenBelowMembers(cells, |cells|);
    forall i, j | 0 <= i < j < |cells| && Counted(r, i) && Counted(r, j) ensures r[i] != r[j] {
      var di := i in dups;
      var dj := j in dups;
      if !di && !dj {
        // both first occurrences: a repeated symbol would make j a duplicate
        assert r[i] == cells[i] && r[j] == cells[j];
        SeenBelowMembers(cells, j);
      } else if di && dj {
        var ki :| 0 <= ki < |dups| && dups[ki] == i;
        var kj :| 0 <= kj < |dups| && dups[kj] == j;
        assert r[i] == Replacement(missing, ki) && r[j] == Replacement(missing, kj);
        assert ki != kj;
      } else if di {
        ReplacedAgainstKept(cells, missing, i, j);
      } else {
        ReplacedAgainstKept(cells, missing, j, i);
      }
    }
  }

  /** A counted replacement differs from a counted cell that was kept. */
  lemma ReplacedAgainstKept(cells: seq<Symbol>, missing: seq<Symbol>, d: nat, kept: nat)
    requires forall k :: 0 <= k < |missing| ==> missing[k] !in Seen(cells)
    requires d < |cells| && kept < |cells| && d in Duplicates(cells) && kept !in Duplicates(cells)
    requires Counted(Repaired(cells, missing), d) && Counted(Repaired(cells, missing), kept)
    ensures Repaired(cells, missing)[d] != Repaired(cells, missing)[kept]
  {
    var r := Repaired(cells, missing);
    var dups := Duplicates(cells);
    RepairWrites(cells, missing);
    DuplicatesFacts(cells, |cells|);
    SeenBelowMembers(cells, |cells|);
    var k :| 0 <= k < |dups| && dups[k] == d;
    assert r[d] == Replacement(missing, k);
    assert k < |missing|;
    assert r[kept] == cells[kept] && Counted(cells, kept);
    assert cells[kept] in Seen(cells);
  }

  /** The repair of the GA: for any order of the missing symbols, a list
      without repeats leaves no counted symbol twice in columns 0-9. */
  lemma RepairNoDuplicates(cells: seq<Symbol>, chars: seq<Symbol>, shuffled: seq<Symbol>)
    requires NoRepeats(chars)
    requires multiset(shuffled) == multiset(MissingFrom(chars, Seen(cells)))
    ensures forall i, j :: 0 <= i < j < |cells| && Counted(Repaired(cells, shuffled), i) && Counted(Repaired(cells, shuffled), j) ==>
              Repaired(cells, shuffled)[i] != Repaired(cells, shuffled)[j]
  {
    var missing := MissingFrom(chars, Seen(cells));
    MissingFromFacts(chars, Seen(cells));
    NoRepeatsDistinct(missing);
    DistinctNoRepeats(shuffled);
    forall k | 0 <= k < |shuffled| ensures shuffled[k] !in Seen(cells) {
      assert shuffled[k] in multiset(missing);
    }
    RepairedUnique(cells, shuffled);
  }

  // ---------------------------------------------------------------------------
  // Uniform crossover
  // ---------------------------------------------------------------------------

  /** The first `n` cells of a crossover child before repair, and the draws
      left after them. */
  datatype Mixing = Mixing(cells: seq<Symbol>, rest: seq<nat>)

  /** The crossover loop over the first `n` cells: a cell outside columns 0-9
      keeps the empty grid's blank, a fixed cell comes from parent 1, and any
      other cell from parent 1 when the next coin shows true, else from
      parent 2. */
  function Mix(p1: seq<Symbol>, p2: seq<Symbol>, draws: seq<nat>, n: nat): (m: Mixing)
    requires WellShaped(p1) && WellShaped(p2) && n <= NUM_CELLS
    ensures |m.cells| == n
  {
    if n == 0 then Mixing([], draws)
    else
      var m := Mix(p1, p2, draws, n - 1);
      var i := n - 1;
      if !InGaColumns(i) then Mixing(m.cells + [BLANK], m.rest)
      else if FixedAt(i) then Mixing(m.cells + [p1[i]], m.rest)
      else if Head(m.rest) % 2 == 1 then Mixing(m.cells + [p1[i]], Drop(m.rest, 1))
      else Mixing(m.cells + [p2[i]], Drop(m.rest, 1))
  }

  /** The child of two parents before repair, given the generator's draws. */
  function UniformChild(p1: seq<Symbol>, p2: seq<Symbol>, draws: seq<nat>): (child: seq<Symbol>)
    requires WellShaped(p1) && WellShaped(p2)
    ensures WellShaped(child)
  {
    Mix(p1, p2, draws, NUM_CELLS).cells
  }

  /** The crossover consumes one draw per movable cell. */
  lemma {:induction false} MixDraws(p1: seq<Symbol>, p2: seq<Symbol>, draws: seq<nat>, n: nat)
    requires WellShaped(p1) && WellShaped(p2) && n <= NUM_CELLS
    ensures Mix(p1, p2, draws, n).rest == Drop(draws, |MovableBelow(n)|)
  {
    if n > 0 {
      var i := n - 1;
      MixDraws(p1, p2, draws, i);
      MovableBelowStep(i);
      if Movable(i) {
        DropTwice(draws, |MovableBelow(i)|);
      }
    }
  }

  lemma MovableBelowStep(n: nat)
    requires n < NUM_CELLS
    ensures |MovableBelow(n + 1)| == |MovableBelow(n)| + if Movable(n) then 1 else 0
  {
  }

  /** Dropping one more draw after `k`. */
  lemma DropTwice(draws: seq<nat>, k: nat)
    ensures Drop(Drop(draws, k), 1) == Drop(draws, k + 1)
  {
  }

  /** Every cell of the child below `n` comes from parent 1 on a fixed cell,
      from one of the two parents elsewhere in columns 0-9, and is blank in
      column 10. */
  lemma {:induction false} MixFacts(p1: seq<Symbol>, p2: seq<Symbol>, draws: seq<nat>, n: nat)
    requires WellShaped(p1) && WellShaped(p2) && n <= NUM_CELLS
    ensures forall i :: 0 <= i < n && InGaColumns(i) && FixedAt(i) ==> Mix(p1, p2, draws, n).cells[i] == p1[i]
    ensures forall i :: 0 <= i < n && Movable(i) ==>
              Mix(p1, p2, draws, n).cells[i] == p1[i] || Mix(p1, p2, draws, n).cells[i] == p2[i]
    ensures forall i :: 0 <= i < n && !InGaColumns(i) ==> Mix(p1, p2, draws, n).cells[i] == BLANK
  {
    if n > 0 {
      MixFacts(p1, p2, draws, n - 1);
      var prev := Mix(p1, p2, draws, n - 1).cells;
      assert forall i :: 0 <= i < n - 1 ==> Mix(p1, p2, draws, n).cells[i] == prev[i];
    }
  }

  /** A child cell comes from parent 1 on a fixed cell, from one of the two
      parents elsewhere in columns 0-9, and stays blank in column 10; two equal
      parents give themselves back in columns 0-9. */
  lemma UniformChildFacts(p1: seq<Symbol>, p2: seq<Symbol>, draws: seq<nat>)
    requires WellShaped(p1) && WellShaped(p2)
    ensures forall i :: 0 <= i < NUM_CELLS && InGaColumns(i) && FixedAt(i) ==> UniformChild(p1, p2, draws)[i] == p1[i]
    ensures forall i :: 0 <= i < NUM_CELLS && Movable(i) ==>
              UniformChild(p1, p2, draws)[i] == p1[i] || UniformChild(p1, p2, draws)[i] == p2[i]
    ensures forall i :: 0 <= i < NUM_CELLS && !InGaColumns(i) ==> UniformChild(p1, p2, draws)[i] == BLANK
    ensures p1 == p2 ==> forall i :: 0 <= i < NUM_CELLS && InGaColumns(i) ==> UniformChild(p1, p2, draws)[i] == p1[i]
  {
    MixFacts(p1, p2, draws, NUM_CELLS);
  }

  // ---------------------------------------------------------------------------
  // Swap mutation
  // ---------------------------------------------------------------------------

  /** `positions` of `mutate`: the movable cells in row-major order. */
  function MutablePositions(): (r: seq<nat>)
    ensures forall k :: 0 <= k < |r| ==> r[k] < NUM_CELLS && Movable(r[k])
    ensures forall a, b :: 0 <= a < b < |r| ==> r[a] < r[b]
  {
    MovableBelow(NUM_CELLS)
  }

  /** The two cells' contents exchanged. */
  function Swap(cells: seq<Symbol>, a: nat, b: nat): (r: seq<Symbol>)
    requires a < |cells| && b < |cells|
    ensures |r| == |cells|
  {
    cells[a := cells[b]][b := cells[a]]
  }

  /** The two indices into `positions` that `mutate` draws. */
  function MutationPicks(positions: seq<nat>, draws: seq<nat>): (nat, nat)
    requires |positions| > 0
  {
    (Head(draws) % |positions|, Head(Drop(draws, 1)) % |positions|)
  }

  /** The cells after `mutate` picks from `positions`, given the generator's
      draws: with two or more positions, the two drawn positions are exchanged
      unless the same one was drawn twice. */
  function MutatedAt(cells: seq<Symbol>, positions: seq<nat>, draws: seq<nat>): (r: seq<Symbol>)
    requires |cells| == NUM_CELLS
    requires forall k :: 0 <= k < |positions| ==> positions[k] < NUM_CELLS
    ensures |r| == NUM_CELLS
  {
    if |positions| >= 2 then
      var (idx1, idx2) := MutationPicks(positions, draws);
      if idx1 != idx2 then Swap(cells, positions[idx1], positions[idx2]) else cells
    else cells
  }

  /** The draws `mutate` uses: two when it has positions to choose from. */
  function MutationDrawsAt(positions: seq<nat>): nat
  {
    if |positions| >= 2 then 2 else 0
  }

  /** The cells after `mutate`, given the generator's draws. */
  function Mutated(cells: seq<Symbol>, draws: seq<nat>): (r: seq<Symbol>)
    requires WellShaped(cells)
    ensures |r| == NUM_CELLS
  {
    MutatedAt(cells, MutablePositions(), draws)
  }

  /** The draws `mutate` uses. */
  function MutationDraws(): nat
  {
    MutationDrawsAt(MutablePositions())
  }

  /** A swap exchanges the two cells, keeps all others and the multiset of
      contents. */
  lemma SwapFacts(cells: seq<Symbol>, a: nat, b: nat)
    requires a < |cells| && b < |cells|
    ensures Swap(cells, a, b)[a] == cells[b] && Swap(cells, a, b)[b] == cells[a]
    ensures forall i :: 0 <= i < |cells| && i != a && i != b ==> Swap(cells, a, b)[i] == cells[i]
    ensures multiset(Swap(cells, a, b)) == multiset(cells)
  {
    var r1 := cells[a := cells[b]];
    assert multiset(r1) == multiset(cells) - multiset{cells[a]} + multiset{cells[b]};
    assert multiset(r1[b := cells[a]]) == multiset(r1) - multiset{r1[b]} + multiset{cells[a]};
  }

  /** `r` and `cells` agree at every cell but `a` and `b`. */
  predicate AgreeBesides(r: seq<Symbol>, cells: seq<Symbol>, a: nat, b: nat)
  {
    |r| == |cells| && forall i :: 0 <= i < |cells| && i != a && i != b ==> r[i] == cells[i]
  }

  /** Mutation over any list of positions changes at most two cells, both on
      the list, by exchanging them: every other cell keeps its contents, the
      multiset of contents is kept, and equal picks change nothing. */
  lemma MutatedAtFacts(cells: seq<Symbol>, positions: seq<nat>, draws: seq<nat>)
    requires |cells| == NUM_CELLS
    requires forall k :: 0 <= k < |positions| ==> positions[k] < NUM_CELLS
    ensures multiset(MutatedAt(cells, positions, draws)) == multiset(cells)
    ensures forall i :: 0 <= i < NUM_CELLS && (forall k :: 0 <= k < |positions| ==> positions[k] != i) ==>
              MutatedAt(cells, positions, draws)[i] == cells[i]
    ensures exists a, b :: AgreeBesides(MutatedAt(cells, positions, draws), cells, a, b)
    ensures |positions| >= 2 && MutationPicks(positions, draws).0 == MutationPicks(positions, draws).1 ==>
              MutatedAt(cells, positions, draws) == cells
  {
    if |positions| >= 2 {
      var (idx1, idx2) := MutationPicks(positions, draws);
      if idx1 != idx2 {
        SwapFacts(cells, positions[idx1], positions[idx2]);
        assert AgreeBesides(MutatedAt(cells, positions, draws), cells, positions[idx1], positions[idx2]);
      } else {
        assert AgreeBesides(MutatedAt(cells, positions, draws), cells, 0, 0);
      }
    } else {
      assert AgreeBesides(MutatedAt(cells, positions, draws), cells, 0, 0);
    }
  }

  /** Mutation keeps the layout well shaped and changes at most two cells, both
      movable, by exchanging them: the fixed cells and column 10 keep their
      contents and the multiset of contents is kept. */
  lemma MutatedFacts(cells: seq<Symbol>, draws: seq<nat>)
    requires WellShaped(cells)
    ensures WellShaped(Mutated(cells, draws))
    ensures multiset(Mutated(cells, draws)) == multiset(cells)
    ensures forall i :: 0 <= i < NUM_CELLS && !Movable(i) ==> Mutated(cells, draws)[i] == cells[i]
    ensures exists a, b :: AgreeBesides(Mutated(cells, draws), cells, a, b)
  {
    var positions := MutablePositions();
    MutatedAtFacts(cells, positions, draws);
    forall i | 0 <= i < NUM_CELLS && !Movable(i)
      ensures Mutated(cells, draws)[i] == cells[i]
    {
      assert forall k :: 0 <= k < |positions| ==> positions[k] != i;
    }
  }

  // ---------------------------------------------------------------------------
  // Tournament selection
  // ---------------------------------------------------------------------------

  /** The number of candidates a tournament samples. */
  const TOURNAMENT_SIZE: nat := 5

  /** The population index of the k-th sample. */
  function Sample(draws: seq<nat>, n: nat, k: nat): (r: nat)
    requires n > 0
    ensures r < n
  {
    Head(Drop(draws, k)) % n
  }

  predicate Fitter(a: Layout, b: Layout)
  {
    a.fitness > b.fitness
  }

  /** Which of the first `n` samples the tournament holds: the first, replaced
      only by a strictly fitter one. */
  function WinnerAmong(pop: seq<Layout>, draws: seq<nat>, n: nat): (w: nat)
    requires |pop| > 0 && n > 0
    ensures w < n
  {
    if n == 1 then 0
    else
      var w := WinnerAmong(pop, draws, n - 1);
      if Fitter(pop[Sample(draws, |pop|, n - 1)], pop[Sample(draws, |pop|, w)]) then n - 1 else w
  }

  /** The tournament winner is at least as fit as every sample, and strictly
      fitter than every sample drawn before it: the first of the fittest. */
  lemma {:induction false} WinnerFacts(pop: seq<Layout>, draws: seq<nat>, n: nat)
    requires |pop| > 0 && n > 0
    ensures forall k :: 0 <= k < n ==>
              pop[Sample(draws, |pop|, k)].fitness <= pop[Sample(draws, |pop|, WinnerAmong(pop, draws, n))].fitness
    ensures forall k :: 0 <= k < WinnerAmong(pop, draws, n) ==>
              pop[Sample(draws, |pop|, k)].fitness < pop[Sample(draws, |pop|, WinnerAmong(pop, draws, n))].fitness
  {
    if n > 1 {
      WinnerFacts(pop, draws, n - 1);
    }
  }

  /** The layout a tournament over these draws picks: a member of the
      population at least as fit as each of its samples. */
  function TournamentWinner(pop: seq<Layout>, draws: seq<nat>): (w: Layout)
    requires |pop| > 0
    ensures w in pop
    ensures forall k :: 0 <= k < TOURNAMENT_SIZE ==> pop[Sample(draws, |pop|, k)].fitness <= w.fitness
  {
    WinnerFacts(pop, draws, TOURNAMENT_SIZE);
    pop[Sample(draws, |pop|, WinnerAmong(pop, draws, TOURNAMENT_SIZE))]
  }

  // ---------------------------------------------------------------------------
  // Ordering a population
  // ---------------------------------------------------------------------------

  function Fitness(l: Layout): real
  {
    l.fitness
  }

  /** `sort_by(|a, b| b.fitness.partial_cmp(&a.fitness).unwrap())`: the stable
      sort by non-increasing fitness. */
  function SortByFitness(pop: seq<Layout>): (r: seq<Layout>)
    ensures |r| == |pop| && multiset(r) == multiset(pop)
    ensures SortedByKeyDesc(r, Fitness)
    ensures forall v :: WithKey(r, Fitness, v) == WithKey(pop, Fitness, v)
  {
    SortByKeyDescFacts(pop, Fitness);
    SortByKeyDesc(pop, Fitness)
  }

  /** The front of a sorted population is its fittest member. */
  lemma SortedFront(pop: seq<Layout>)
    requires |pop| > 0 && SortedByKeyDesc(pop, Fitness)
    ensures forall l :: l in pop ==> l.fitness <= pop[0].fitness
  {
    forall l | l in pop ensures l.fitness <= pop[0].fitness {
      var k :| 0 <= k < |pop| && pop[k] == l;
      if k > 0 {
        assert Fitness(pop[0]) >= Fitness(pop[k]);
      }
    }
  }
}
