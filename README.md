# Shingetsu layout optimiser — a Dafny model

This project models the core of the Shingetsu kana-layout optimiser. The optimiser searches with a
genetic algorithm for a Japanese kana layout on a four-layer keyboard grid:

- layer 0 is unshifted;
- layers 1 and 2 are reached through the ☆ and ★ prefix shift keys;
- layer 3 is the ◆ layer.

Each layer has three rows of 10, 11 and 10 keys. A layout is scored against the n-gram
statistics of a corpus and then exported as an input-method table.

The model covers the Rust crate (`src/`) and the Python helper scripts (`scripts/`), in these modules:

- **Layouts** (`src/layout.rs`). As a flat row-major sequence of 124 cells, the model covers:
  - the grid and its fixed and forced-blank keys;
  - per-key position costs, fingers, hands and weights;
  - the hand-made seed layout, the default layout and random filling of the 112 free keys.
- **LayoutSearch** (`src/layout.rs`). The first-occurrence search, the character-to-key index, and the duplicate/missing/extra validator.
- **References** and **Random**:
  - the Tsuki 2-263 reference layout;
  - the romaji consonant/vowel decomposition and the Colemak letter positions;
  - the seeded ChaCha8 generator, seen as a fixed stream of draws.
- **GaOperators** and **Genetic** (`src/ga.rs`):
  - the operators: crossover, swap mutation, duplicate repair and tournament selection;
  - the optimiser class: elitism and the generation loop with its best-ever history and callback;
  - the summary of several runs.
- **NgramScores**, **PositionCost**, **Similarity** and **Evaluation** (`src/evaluation.rs`):
  - the 1-, 2- and 3-gram counters, over hash maps, in any iteration order;
  - the position-cost geometric mean;
  - the Colemak, Tsuki and memorability scans;
  - the fifteen scores and the fitness built from them.
  - `ln`, `exp` and `powf` are a parameter (`Math`), and the bounds are proved under the stated assumptions about it.
- **Corpus** (`src/corpus.rs`). It covers:
  - n-gram line parsing;
  - sliding-window counting of text;
  - the per-line filtering of the n-gram files;
  - the frequency-sorted kana list;
  - the symbol characters that are always added, and the totals.
- **CreateNgram**, **ExtractYoon**, **MergeFrequencies** and **ScriptLines** (`scripts/`):
  - the corpus scripts that write the n-gram files;
  - the proof that the Rust loader reads their lines back.
- **Export** (`src/export.rs`):
  - the key tables and shift-key detection;
  - the hazkey TSV (with its round trip through line splitting);
  - the analyzer JSON's conversion table and letter keys;
  - the kana-to-romaji and key-code tables.
- **RomajiTable** (`scripts/generate_romaji_table.py`):
  - the QWERTY-to-Colemak key map;
  - the hazkey table generator;
  - the Karabiner-Elements manipulators, including how the shift-state variable steps.
- **Tui** (`src/tui.rs`). The progress-display state and its update methods, the key handling, and the two match-count helpers.
- **Common** and **Totals**. Shared helpers: splitting and joining, decimal numbers, stable sorting, and order-free totals.

Modelling choices:

- A cell holds a `Symbol` (a string). The source compares cells with `char` literals in several
  places although the cells are `String`s. The model compares whole strings, and it keys the
  character index by the first character of a cell, as `build_char_map` does.
- Hash maps are visited in an order the program does not fix. Every counter built by such a loop
  is proved equal to an order-free total.
- Operations that change state in the source are methods proved against specification functions.
  Where the source updates an object in place, they belong to the class `Genetic.GeneticAlgorithm`
  or `Tui.TuiState`, or they use the generator `Random.Rng`.

## Model

| member | source | states |
|---|---|---|
| Layouts.NumCellsIsProduct | src/layout.rs:15-27 | the grid has KEYS_PER_LAYER = 10 + 11 + 10 keys in each of the 4 layers |
| Layouts.Finger | src/layout.rs:145-153 | the finger index is 0..3 (little, ring, middle, index; the eleventh key counts as little) |
| Layouts.FingerMirror | src/layout.rs:140-153 | mirror columns c and 9-c are typed by the same finger of opposite hands |
| Layouts.WeightBounds | src/layout.rs:156-188 | the keystroke weight lies in 1.0..9.0 and is 1.0 exactly on the index-finger home keys of layer 0 |
| Layouts.IndexOf | src/layout.rs:194-198 | a valid position has a flat cell index below 124 |
| Layouts.PosAt | src/layout.rs:194-198 | every flat index names a valid position whose index it is |
| Layouts.PosAtIndexOf | src/layout.rs:194-198 | the flat index is a bijection between valid positions and 0..123 |
| Layouts.DivModLayer | src/layout.rs:27 | the layer and in-layer offset of a flat index are its quotient and remainder by 31 |
| Layouts.FixedIndex | src/layout.rs:435-460 | the fixed-index set is exactly the cells `is_fixed_position` picks out |
| Layouts.BlankIndex | src/layout.rs:419-432 | the blank-index set is exactly the cells `is_blank_position` picks out |
| Layouts.IsReservedCell | src/layout.rs:541-546 | a cell is skipped if and only if it is fixed or forced blank |
| Layouts.FreeIndicesUpToFacts | src/layout.rs:384-396 | the free cells below n are listed once each, in increasing order |
| Layouts.BelowStep | src/layout.rs:384-396 | counting members below n goes up by one exactly at members |
| Layouts.CountSplit | src/layout.rs:341-353 | every cell below n is exactly one of free, fixed or blank |
| Layouts.CellKindOne | src/layout.rs:384-396 | each cell is exactly one of free, fixed and blank |
| Layouts.FixedNotBlank | src/layout.rs:419-460 | no position is both fixed and forced blank |
| Layouts.FixedBelowAll | src/layout.rs:351 | FIXED_COUNT is 8 |
| Layouts.BlankBelowAll | src/layout.rs:352 | SHIFT_BLANK_COUNT is 4 |
| Layouts.CellCounts | src/layout.rs:341-353 | 124 cells, 8 fixed, 4 forced blank, and 124 - 8 - 4 = 112 free |
| Layouts.CostRowLayer0 | src/layout.rs:41-48 | the layer-0 penalties are non-negative and zero exactly at the fixed cells |
| Layouts.CostRowLayer1 | src/layout.rs:50-57 | the layer-1 penalties are non-negative and zero exactly at the fixed ・ cell |
| Layouts.CostRowLayer2 | src/layout.rs:59-66 | the layer-2 penalties are non-negative and zero exactly at the forced-blank cell |
| Layouts.CostRowLayer3 | src/layout.rs:68-75 | the layer-3 penalties are non-negative and zero exactly at the fixed ; cell and the blank column 9 |
| Layouts.PositionCostZeroIffReserved | src/layout.rs:78-88 | on every real key the penalty is non-negative and zero exactly at the fixed and forced-blank cells |
| Layouts.DefaultIsEmpty | src/layout.rs:243-263 | the default layout has 124 cells, all holding the blank symbol |
| Layouts.FixedSymbolsAtIndices | src/layout.rs:369-379 | writing the eight fixed symbols at their cells makes every fixed cell hold its symbol |
| Layouts.BlankCellsAtIndices | src/layout.rs:419-432 | empty cells at the four blank positions make every forced-blank cell empty |
| Layouts.ImprovedCustom | src/layout.rs:270-331 | the initial layout is well shaped, holds the fixed symbols at their cells and leaves the forced-blank cells empty, with fitness 0 and default scores |
| Layouts.DefaultKanaFillsFreeCells | src/layout.rs:93-116 | the fallback kana list has exactly 112 entries, one per free cell |
| Layouts.FreeCountMonotone | src/layout.rs:384-396 | the number of free cells below n grows with n |
| Layouts.FreeIndexRank | src/layout.rs:384-396 | the k-th free cell has exactly k free cells before it |
| Layouts.PadOrTruncate | src/layout.rs:356-361 | the list is brought to exactly n entries: the first n symbols, then blanks |
| Layouts.FixedSymbolGrid | src/layout.rs:364-379 | the empty grid with the eight fixed symbols at cells 12, 17, 20, 28-30, 51, 113 and empty cells at 82, 102, 112, 123 |
| Layouts.FixedSymbolGridReserved | src/layout.rs:364-379 | that grid holds every fixed symbol and leaves every forced-blank cell empty |
| Layouts.PadChars | src/layout.rs:356-361 | the padding loop and the truncation give the padded-or-truncated list |
| Layouts.FillFreeCells | src/layout.rs:364-396 | the result is well shaped, keeps the fixed and blank cells, and its free cells in row-major order hold the symbols in order |
| Layouts.FillInOrder | src/layout.rs:384-396 | the filling loop writes the k-th symbol into the k-th free cell and changes no other cell |
| Layouts.FillSkip | src/layout.rs:389 | a fixed or blank cell is passed over unchanged |
| Layouts.FillWrite | src/layout.rs:390-393 | a free cell receives the next symbol |
| Layouts.ReservedCellsKept | src/layout.rs:389 | a grid agreeing outside the free cells keeps the fixed symbols and forced blanks |
| Layouts.FreeContentsByRank | src/layout.rs:384-396 | a grid whose free cells hold the symbols by rank has exactly those symbols as free contents |
| Layouts.RandomWithChars | src/layout.rs:340-409 | the result is well shaped with the fixed and forced-blank cells in place, its free cells are a permutation of the padded-or-truncated list, and the shuffle draws 111 numbers |
| LayoutSearch.FindChar | src/layout.rs:463-475 | the result is None exactly when no cell holds the string; otherwise it is a valid key holding it with no earlier cell in layer, row, column order holding it |
| LayoutSearch.BuildCharMap | src/layout.rs:479-495 | the map sends the first character of every non-blank, non-NUL cell to the first key in row-major order whose cell starts with it, and has no other keys |
| LayoutSearch.CharMapUnique | src/layout.rs:479-495 | the character index of a layout is unique, so the index the loop builds is the one every other member refers to |
| LayoutSearch.ScanFreeCells | src/layout.rs:535-556 | the scan records exactly the strings held by free cells, and for each of them its free keys in row-major order |
| LayoutSearch.ScanSkips | src/layout.rs:540-545 | a fixed, forced-blank or empty cell leaves the scan's records unchanged |
| LayoutSearch.ScanRecords | src/layout.rs:547-551 | a free occupied cell appends its key to its string's positions and adds the string to those found |
| LayoutSearch.Validate | src/layout.rs:529-591 | the result is the validation of the free cells: duplicates with all their keys, expected minus found, found minus expected and both sizes |
| LayoutSearch.DuplicatesOfCounts | src/layout.rs:559-563 | the duplicates are the strings found at more than one free key, with those keys |
| LayoutSearch.FoundUpToHolds | src/layout.rs:547-551 | a string is found exactly when some free cell holds it |
| LayoutSearch.PositionsOfNonEmpty | src/layout.rs:547-551 | a string has a recorded key exactly when some free cell holds it |
| LayoutSearch.PositionsOfTwice | src/layout.rs:559-563 | a string has more than one recorded key exactly when two different free cells hold it |
| LayoutSearch.ValidIffNoRepeats | src/layout.rs:605-608 | a layout is valid exactly when no two free cells hold the same string |
| LayoutSearch.PositionsOfSound | src/layout.rs:547-551 | each recorded key is a valid key holding the string, and the recorded keys are in increasing row-major order |
| LayoutSearch.ValidateMissingExtra | src/layout.rs:566-588 | missing is the expected strings no free cell holds, extra the held strings not expected, and found plus missing equals expected plus extra |
| Random.Drop | src/ga.rs:199 | drawing k numbers shortens the stream by k, down to empty |
| Random.Rng.GenRange | src/ga.rs:199 | `gen_range(0..n)` yields a value below n and consumes one draw |
| Random.Rng.GenBool | src/ga.rs:219 | `gen::<bool>()` consumes one draw and yields its parity |
| Random.UnitOf | src/ga.rs:156 | the value `gen::<f64>()` makes of a draw lies in [0, 1) |
| Random.Rng.GenUnit | src/ga.rs:156 | `gen::<f64>()` yields the value of the next draw, in [0, 1), and consumes one draw |
| Random.Rng.Shuffle | src/layout.rs:363 | `shuffle` returns a permutation of the list and consumes one draw per index from the last down to 1 |
| References.TsukiPos | src/layout.rs:676-687 | the k-th key of a Tsuki face, row-major, is row k / 10 and column k % 10 |
| References.InsertFace | src/layout.rs:676-687 | the insertion loop over one face adds exactly that face's recorded characters, each at a key of that face holding it, overwriting earlier entries and keeping the others |
| References.InFaceNext | src/layout.rs:677-680 | the characters recorded up to key k+1 are those up to k and the character at k when it is recorded |
| References.NewTsukiLayout | src/layout.rs:659-691 | the map holds every character of the back face and the front-face characters other than ☆★゛゜, each at a key holding it, back-face characters on layer 1 and the rest on layer 0 |
| References.ColemakTableShape | src/layout.rs:784-793 | the table has 26 entries, each a key of the three main rows |
| References.ColemakLettersDistinct | src/layout.rs:784-793 | the letters of the table are a-z, each once |
| References.BuildPhonemePositions | src/evaluation.rs:445-447 | the map holds exactly the 26 letters, each at its table position (row below 3, column below 10) |
| References.ColemakTableUpToFacts | src/evaluation.rs:445-447 | after k insertions the map holds exactly the first k letters at their table positions |
| References.ColemakTableKeys | src/evaluation.rs:445-447 | after k insertions the keys are the first k letters |
| References.ColemakTableValues | src/evaluation.rs:445-447 | after k insertions each of the first k letters maps to its table position |
| References.ColemakTableBounds | src/evaluation.rs:445-447 | every mapped position lies on the three main rows, columns 0..9 |
| References.RomajiPhonemes | src/layout.rs:706-781 | a consonant is always a Colemak letter, a vowel one of a i u e o, and ん alone has a consonant without a vowel |
| GaOperators.InGaColumnsAt | src/ga.rs:214-216 | the operators' loops over columns 0..9 visit exactly the cells other than the eleventh keys |
| GaOperators.IsFixedCell | src/ga.rs:217 | `Layout::is_fixed_position` at a flat index picks out exactly the fixed cells |
| GaOperators.MovableBelow | src/ga.rs:236-248 | the movable cells below n, listed once each in row-major order |
| GaOperators.DuplicatesBelow | src/ga.rs:274-290 | the duplicates are cells of the grid scanned so far |
| GaOperators.Duplicates | src/ga.rs:274-290 | the duplicates are cells of the grid |
| GaOperators.OverwriteFirst | src/ga.rs:301-304 | overwriting duplicates keeps the grid size |
| GaOperators.Repaired | src/ga.rs:266-305 | the repair keeps the grid size |
| GaOperators.SeenBelowMembers | src/ga.rs:283-287 | `seen` holds exactly the symbols of the counted cells scanned so far |
| GaOperators.DuplicatesFacts | src/ga.rs:279-287 | duplicates are listed in scan order, and a counted cell is listed exactly when its symbol occurred at an earlier counted cell |
| GaOperators.OverwriteFacts | src/ga.rs:301-304 | the a-th duplicate gets the a-th replacement and every other cell is kept |
| GaOperators.RepairWrites | src/ga.rs:301-304 | the repair changes only duplicate cells, each receiving its missing symbol or a blank |
| GaOperators.MissingFromFacts | src/ga.rs:293-297 | `missing` holds exactly the listed symbols not seen, and has no repeats when the list has none |
| GaOperators.RepairedUnique | src/ga.rs:266-305 | a repair with distinct missing symbols that were not seen leaves no counted symbol twice |
| GaOperators.ReplacedAgainstKept | src/ga.rs:301-304 | a counted replacement differs from every counted cell that was kept |
| GaOperators.RepairNoDuplicates | src/ga.rs:266-305 | for any shuffle of the missing symbols, a kana list without repeats leaves no counted symbol twice in columns 0..9 |
| GaOperators.Mix | src/ga.rs:214-226 | the crossover loop produces the first n cells of the child |
| GaOperators.UniformChild | src/ga.rs:210-226 | the unrepaired child has a full grid |
| GaOperators.MixDraws | src/ga.rs:219 | the crossover uses one coin per movable cell |
| GaOperators.MovableBelowStep | src/ga.rs:216-219 | the movable count goes up by one exactly at movable cells |
| GaOperators.MixFacts | src/ga.rs:217-222 | fixed cells come from parent 1, movable cells from one of the parents, and column 10 stays blank |
| GaOperators.UniformChildFacts | src/ga.rs:210-226 | fixed cells come from parent 1, movable cells from either parent, column 10 stays blank, and equal parents give themselves back in columns 0..9 |
| GaOperators.MutablePositions | src/ga.rs:236-248 | `positions` lists the movable cells once each in row-major order |
| GaOperators.Swap | src/ga.rs:258-260 | a swap keeps the grid size |
| GaOperators.MutatedAt | src/ga.rs:250-262 | the mutated grid keeps its size |
| GaOperators.Mutated | src/ga.rs:234-263 | the mutated grid keeps its size |
| GaOperators.SwapFacts | src/ga.rs:258-260 | a swap exchanges the two cells, keeps the others and keeps the multiset of contents |
| GaOperators.MutatedAtFacts | src/ga.rs:250-262 | mutation keeps the multiset of contents, changes at most two of the listed cells, and drawing the same index twice changes nothing |
| GaOperators.MutatedFacts | src/ga.rs:234-263 | mutation keeps the grid full and its contents, never moves a fixed cell or column 10, and changes at most two cells |
| GaOperators.Sample | src/ga.rs:199 | a sample is an index of the population |
| GaOperators.WinnerAmong | src/ga.rs:198-204 | the leader is one of the samples taken |
| GaOperators.WinnerFacts | src/ga.rs:198-206 | the winner is at least as fit as every sample and strictly fitter than every earlier one: the first of the fittest |
| GaOperators.SortByFitness | src/ga.rs:127 | the stable sort by non-increasing fitness: a permutation, sorted, keeping the order of equal fitness |
| GaOperators.SortedFront | src/ga.rs:129-130 | the front of a sorted population is its fittest member |
| Genetic.KanaList | src/ga.rs:66-71 | the corpus kana list, one symbol per kana in order, or the fallback list when the corpus has none |
| Genetic.KanaListNoRepeats | src/ga.rs:66-71 | a corpus kana list without repeats gives a symbol list without repeats |
| Genetic.NonDecreasingAppend | src/ga.rs:170-176 | appending a best-so-far value no smaller than the last keeps the history non-decreasing |
| Genetic.DominatedAppend | src/ga.rs:170-176 | appending a population no fitter than the new best keeps every generation under its history entry |
| Genetic.ChosenScoresAre | src/ga.rs:115 | the scores the evaluator gives a grid are determined by the grid |
| Genetic.GeneticAlgorithm.New | src/ga.rs:64-78 | the optimiser holds the configuration, the corpus, the default weights, the kana list of the corpus and a fresh generator for the seed's draws |
| Genetic.GeneticAlgorithm.WithWeights | src/ga.rs:81-95 | as `new`, with the given weights; usable when its weight sums are non-zero |
| Genetic.GeneticAlgorithm.EvaluatedPermutation | src/ga.rs:127 | sorting a scored population keeps every member scored |
| Genetic.GeneticAlgorithm.EvaluatedScores | src/ga.rs:115 | a scored layout holds the scores of its grid and the fitness those scores give |
| Genetic.GeneticAlgorithm.EvaluatedFitnessBounds | src/ga.rs:115 | with positive weights a scored layout has fitness in (0, 200] |
| Genetic.GeneticAlgorithm.EvaluateLayout | src/ga.rs:115 | evaluation keeps the grid and scores it |
| Genetic.GeneticAlgorithm.RepairLayout | src/ga.rs:266-305 | the shuffled missing list is a permutation of the listed symbols not seen, and the repair writes it into the duplicate cells in order, blanks after it runs out; the shuffle takes one draw per missing symbol after the first |
| Genetic.GeneticAlgorithm.Crossover | src/ga.rs:210-231 | the child mixes the parents cell by cell as the coin draws say (fixed cells from the first parent, column 10 left blank) and is then repaired; the crossover takes one coin per movable cell and then the repair's draws |
| Genetic.GeneticAlgorithm.MixCell | src/ga.rs:216-223 | one cell of the crossover loop: from parent 1 at a fixed cell or on heads, from parent 2 otherwise |
| Genetic.GeneticAlgorithm.Mutate | src/ga.rs:234-263 | two movable cells drawn at random exchange their contents, and two draws are used when there are at least two such cells |
| Genetic.GeneticAlgorithm.SwapDrawn | src/ga.rs:250-262 | the two drawn positions exchange contents when the indices differ; nothing changes otherwise |
| GaOperators.TournamentWinner | src/ga.rs:194-207 | the layout a tournament picks from given draws is a member of the population at least as fit as each of its five samples |
| Genetic.GeneticAlgorithm.TournamentSelect | src/ga.rs:194-207 | the winner is the first fittest of five samples with replacement, and five draws are used |
| Genetic.GeneticAlgorithm.Round | src/ga.rs:199-203 | a sample replaces the leader only when it is strictly fitter |
| Genetic.GeneticAlgorithm.SeedLayout | src/ga.rs:113-116 | the grid is `improved_custom` repaired with a permutation of the listed symbols it lacks, and it is scored |
| Genetic.GeneticAlgorithm.RandomMember | src/ga.rs:120-123 | the grid is a `random_with_chars` layout over the kana list (fixed symbols and forced blanks in place, the free cells a permutation of the list brought to 112 entries) repaired with a permutation of the listed symbols it lacks, and it is scored |
| Genetic.GeneticAlgorithm.InitialPopulation | src/ga.rs:110-124 | the initial population has max(population_size, 1) members, all scored: member 0 is the repaired `improved_custom` and every later member a repaired `random_with_chars` layout |
| Genetic.GeneticAlgorithm.AddRandomMember | src/ga.rs:119-124 | one pass of the filling loop appends one repaired, scored random layout and keeps the members before it |
| Genetic.GeneticAlgorithm.Offspring | src/ga.rs:153-159 | the child is the repaired uniform crossover of the parents under the draws at the start; the mutation coin is the first draw after the crossover's coins and its repair's shuffle, and when it falls below the mutation rate the child is that crossover child mutated by the following draws and repaired again; each repair places a permutation of the symbols its grid lacks |
| Genetic.GeneticAlgorithm.ScoredShapes | src/ga.rs:162 | every scored member has a full grid |
| Genetic.GeneticAlgorithm.Breed | src/ga.rs:149-163 | the parents are the winners of a tournament on the first five draws and of one on the next five; the child is their offspring from the draws after those ten, mutated exactly when the coin those draws fix falls below the mutation rate; it comes back scored with its grid unchanged |
| Genetic.GeneticAlgorithm.KeepElites | src/ga.rs:142-144 | the elites are the first min(elite_count, len) members in rank order |
| Genetic.GeneticAlgorithm.FillUp | src/ga.rs:147-164 | children are appended after the elites until the configured size, all scored |
| Genetic.GeneticAlgorithm.AddChild | src/ga.rs:147-165 | one pass of the breeding loop appends one scored child and keeps the members before it |
| Genetic.GeneticAlgorithm.NextGeneration | src/ga.rs:139-168 | the next generation has the expected size, is scored, sorted by non-increasing fitness and contains the elites |
| Genetic.GeneticAlgorithm.ElitismKeepsFront | src/ga.rs:142-168 | with at least one elite the new front is at least as fit as the old one |
| Genetic.GeneticAlgorithm.SortedInitialPopulation | src/ga.rs:109-127 | the result is the stable descending sort of an initial population of max(population_size, 1) scored members, the repaired `improved_custom` first and repaired random layouts after it |
| Genetic.GeneticAlgorithm.FinalCheck | src/ga.rs:181-183 | the best layout is repaired with a permutation of its missing symbols and scored again |
| Genetic.GeneticAlgorithm.Advance | src/ga.rs:137-174 | the best layout is replaced only by a strictly fitter front, and bounds every member of the new generation |
| Genetic.GeneticAlgorithm.ReportedAppend | src/ga.rs:176-177 | each callback call reports the generation, the best fitness so far and a layout with that fitness |
| Genetic.GeneticAlgorithm.Generations | src/ga.rs:137-178 | the loop records generations+1 history entries starting from the initial front, one callback per generation, and ends with a scored best layout |
| Genetic.GeneticAlgorithm.Step | src/ga.rs:137-178 | one pass extends the history, the calls and the populations by one entry each and keeps the loop invariant |
| Genetic.GeneticAlgorithm.RecordedAppend | src/ga.rs:176-177 | appending a best value at least the last and bounding its population keeps the record |
| Genetic.GeneticAlgorithm.RunWithCallback | src/ga.rs:105-191 | generation 0 is the sorted initial population of max(population_size, 1) scored members, the repaired `improved_custom` and repaired random layouts; every generation's population is non-empty, scored and sorted by fitness; the history has generations+1 entries, starts at the fitness of generation 0's front, and each later entry is the larger of the entry before and its generation's front, so it never decreases, bounds its population and is at least as fit as every initial member, the repaired hand-made layout included; each callback reports its generation's best; the result is the last reported layout repaired and scored |
| Genetic.GeneticAlgorithm.InitialBelowHistory | src/ga.rs:126-133 | every member of the initial population is at most as fit as every entry of a non-decreasing history that starts at the sorted front |
| Genetic.BestFitnesses | src/ga.rs:336 | the best fitness of every run, in order |
| Genetic.LastMaxIndex | src/ga.rs:345-350 | `max_by` names a run of the list |
| Genetic.SquaredDeviations | src/ga.rs:340 | one squared deviation per run |
| Genetic.SummarizeResults | src/ga.rs:335-353 | the best index names a run |
| Genetic.MinMaxFacts | src/ga.rs:342-350 | the minimum and maximum bound the list and are attained; the chosen index holds the maximum and no later entry does |
| Genetic.SumBounds | src/ga.rs:339 | a sum of n values in [lo, hi] lies in [n lo, n hi] |
| Genetic.SumNonNegative | src/ga.rs:340 | a sum of non-negative values is non-negative |
| Genetic.SummaryRange | src/ga.rs:342-350 | the summary's minimum and maximum bound every run and are attained, and the best run is the last one with the maximum |
| Genetic.SummaryMean | src/ga.rs:339-343 | the mean lies between the minimum and the maximum |
| Genetic.MeanBetween | src/ga.rs:339 | the mean of values in [lo, hi] lies in [lo, hi] |
| Genetic.SummaryVariance | src/ga.rs:340 | the variance is non-negative |
| NgramScores.PosOf | src/evaluation.rs:165 | a key is found exactly when the n-gram has that character and the layout places it |
| NgramScores.CountOf | src/evaluation.rs:164 | a count read from the corpus is never negative |
| NgramScores.AddUnigramLinear | src/evaluation.rs:163-186 | one step of the 1-gram loop adds the entry's contribution to each counter independently |
| NgramScores.UnigramTotalsInsert | src/evaluation.rs:163-186 | visiting one more 1-gram entry, in whatever order, keeps every counter equal to the total over the entries visited |
| NgramScores.CountUnigrams | src/evaluation.rs:163-186 | after the loop each 1-gram counter is the total over the whole character map, whatever order the map is walked in |
| NgramScores.UnigramContributionFacts | src/evaluation.rs:165-185 | one character's contributions are non-negative, its characters split into single and shifted, home and layer 1 plus layer 2 are parts of them, keystrokes are at least characters and typed plus missing is its count |
| NgramScores.WeightScales | src/layout.rs:156-188 | a key's weight is at least 1, so weighted keystrokes are at least the count |
| NgramScores.UnigramTermFacts | src/evaluation.rs:163-186 | the same facts for one entry of the 1-gram map |
| NgramScores.UnigramTotalsSane | src/evaluation.rs:163-186 | the final counters satisfy every relation `compute_scores` relies on, and typed plus missing characters make up the whole corpus |
| NgramScores.UnigramLayers | src/evaluation.rs:173-179 | layer 1 and layer 2 keystrokes together do not exceed the shifted ones |
| NgramScores.BigramKinds | src/evaluation.rs:195-208 | same-finger, row-skip and alternation do not depend on the order of the pair; a row skip is a same-finger pair; alternation never is one; a key repeated is a same-finger pair without a row skip |
| NgramScores.RowSkipIsTopToBottom | src/evaluation.rs:199-203 | on three-row keys a row skip is exactly a same-finger pair between the top and bottom row |
| NgramScores.AddBigramLinear | src/evaluation.rs:189-211 | one step of the 2-gram loop adds the pair's contribution counter by counter |
| NgramScores.BigramTotalsInsert | src/evaluation.rs:189-211 | visiting one more pair keeps every counter equal to the total over the pairs visited |
| NgramScores.CountBigrams | src/evaluation.rs:189-211 | after the loop each 2-gram counter is the total over the whole pair map |
| NgramScores.BigramContributionFacts | src/evaluation.rs:190-209 | for one pair, row skips are at most the same-finger count and same-finger plus alternating is at most what is counted |
| NgramScores.BigramTotalsSane | src/evaluation.rs:189-211 | the final 2-gram counters keep those relations |
| NgramScores.TrigramKinds | src/evaluation.rs:294-314 | among one-hand three-finger trigrams every one is a roll or a redirect and never both; others are neither; both kinds are kept by reading the trigram backwards; a roll is an in-roll exactly when its reverse is not; an arpeggio pivots on the middle or ring finger with equal steps |
| NgramScores.TrigramContributionKinds | src/evaluation.rs:276-318 | a trigram the layout places adds its count to the counted total and to exactly the kinds it is of |
| NgramScores.AddTrigramLinear | src/evaluation.rs:276-318 | one step of the 3-gram loop adds the trigram's contribution counter by counter |
| NgramScores.TrigramTotalsInsert | src/evaluation.rs:276-318 | visiting one more trigram keeps every counter equal to the total over the trigrams visited |
| NgramScores.CountTrigrams | src/evaluation.rs:276-318 | after the loop each 3-gram counter is the total over the whole trigram map |
| NgramScores.TrigramContributionFacts | src/evaluation.rs:282-316 | for one trigram, in-rolls and arpeggios are at most the rolls and rolls plus redirects are at most what is counted |
| NgramScores.TrigramTotalsSane | src/evaluation.rs:276-318 | the final 3-gram counters keep those relations |
| Totals.TotalRemove | src/evaluation.rs:163 | a total over a map's keys does not depend on which key is taken first |
| Totals.TotalMono | src/evaluation.rs:163-186 | pointwise smaller contributions give a smaller total |
| Totals.TotalLinear | src/evaluation.rs:163-186 | the total of a sum of contributions is the sum of the totals |
| PositionCost.BaseCostShape | src/evaluation.rs:335-339 | the base-cost table has three rows of ten costs between 1 and 4, and cost 1 marks exactly the six home keys under the ring, middle and index fingers |
| PositionCost.KeyCostBounds | src/evaluation.rs:349-381 | every key cost lies between 1 and 120.6, and is 1 exactly on those six home keys without a shift |
| PositionCost.CharTotalsInsert | src/evaluation.rs:347-388 | visiting one more 1-gram entry, in whatever order, keeps the log-sum and the weight equal to the totals over the entries visited |
| PositionCost.CostCharacters | src/evaluation.rs:347-389 | after the first loop the log-sum and weight are those of the whole 1-gram map |
| PositionCost.CostCharacter | src/evaluation.rs:348-388 | one step of the first loop adds exactly that entry's contribution |
| PositionCost.FreqTotalNonNegative | src/evaluation.rs:387 | the weight gathered from the characters is never negative |
| PositionCost.PenaliseBlanks | src/evaluation.rs:391-420 | the second loop visits every cell in layer, row, column order and applies the blank penalty exactly to the non-fixed blanks |
| PositionCost.PenaliseBlank | src/evaluation.rs:393-418 | one cell adds nothing unless it is a non-fixed blank, which adds its cost at one per cent of the weight so far |
| PositionCost.BlankStepWeight | src/evaluation.rs:415-417 | a penalised blank multiplies the weight by 1.01 and any other cell leaves it |
| PositionCost.BlankFoldWeight | src/evaluation.rs:391-420 | after the blanks the weight is the characters' weight compounded once per penalised blank |
| PositionCost.CompoundGrow | src/evaluation.rs:415-417 | one more penalised blank compounds the weight once more |
| PositionCost.CompoundSign | src/evaluation.rs:415-424 | compounding leaves no weight at 0 and keeps a positive weight positive and growing |
| PositionCost.CalcPositionCost | src/evaluation.rs:333-435 | the score is that of the characters then the blanks, at most 100, and 0 when no character of the corpus is on a key |
| PositionCost.PositionScoreBounds | src/evaluation.rs:422-434 | with a positive exponential the score is a percentage, and it is 0 exactly when no character was weighed |
| PositionCost.CalcPositionCostAsWritten | src/evaluation.rs:347-349 | as written the lookup fails exactly when some character of the corpus sits on a key outside the ten-column table; otherwise it gives the corrected score |
| PositionCost.SeedLayoutOutOfTable | src/layout.rs:297-298 | on the seed layout, whose ☆-layer home row has an eleventh key ・, a corpus containing ・ makes the lookup fail |
| Similarity.PercentBounds | src/evaluation.rs:501-505 | a ratio `100 × num / den` with 0 <= num <= den is a percentage, and it is 100 exactly when den is positive and num equals it |
| Similarity.PhonemeScoreFacts | src/evaluation.rs:472-496 | a missing phoneme scores 0; a present one scores between 0 and the layer weight, and the full weight exactly when the key is the phoneme's Colemak key |
| Similarity.ColemakCellFacts | src/evaluation.rs:454-496 | one key scores between 0 and its maximum, and reaches a positive maximum exactly when both its consonant and its vowel sit on their Colemak keys |
| Similarity.CalcColemakSimilarity | src/evaluation.rs:440-506 | the similarity is the scores over the maxima of all non-skipped keys, as a percentage |
| Similarity.ColemakScan | src/evaluation.rs:449-505 | the scan over layers, rows and columns gives that ratio of the totals, and it is a percentage |
| Similarity.ColemakStep | src/evaluation.rs:454-496 | one key adds its score and its maximum to the running totals |
| Similarity.ColemakBounds | src/evaluation.rs:466-505 | the total score never exceeds the total maximum, so the similarity is a percentage |
| Similarity.ColemakPerfect | src/evaluation.rs:440-506 | the similarity is 100 exactly when some key counts and every counted key is on its Colemak keys |
| Similarity.FullScorePerfect | src/evaluation.rs:466-496 | a total score equal to the total maximum means every key scores its maximum |
| Similarity.PerfectFullScore | src/evaluation.rs:466-496 | every key scoring its maximum gives a total score equal to the total maximum |
| Similarity.CalcTsukiSimilarity | src/evaluation.rs:511-542 | the similarity is the matching keys over the compared keys, as a percentage |
| Similarity.TsukiStep | src/evaluation.rs:520-531 | one key adds one to the compared keys when the Tsuki layout has its character on the face its layer maps to, and one to the matches when the row and column agree too |
| Similarity.TsukiBounds | src/evaluation.rs:525-541 | matches never exceed the compared keys, so the similarity is a percentage |
| Similarity.TsukiComparedFaces | src/evaluation.rs:516-526 | a compared key of the unshifted layer has its Tsuki position on the front face, and one of the shifted layers on the back face |
| Similarity.ConsistentUpTo | src/evaluation.rs:569-585 | among the shifted layers of a key, the consistent ones are some of the checked ones |
| Similarity.CalcMemorability | src/evaluation.rs:545-599 | the memorability is the consistent shifted keys over the checked ones, as a percentage |
| Similarity.CompareShiftedLayers | src/evaluation.rs:566-585 | the inner loop counts the checked and the consistent shifted layers of one key |
| Similarity.MemoBounds | src/evaluation.rs:551-598 | consistent keys never exceed the checked ones, which are at most 3 per key, so the memorability is a percentage |
| Evaluation.DefaultWeights | src/evaluation.rs:40-63 | the default weights are positive, the core weights sum to 7.5 and the bonus weights to 48, and they rank same-finger > row-skip > home > keystrokes > alternating and Colemak > position cost > roll |
| Evaluation.FractionBounds | src/evaluation.rs:217 | a share num/den with 0 <= num <= den lies in [0, 1] |
| Evaluation.ScaleBounds | src/evaluation.rs:221 | a percentage scaled by a coverage in [0, 1] stays a percentage and does not grow |
| Evaluation.ComplementBounds | src/evaluation.rs:221 | `100 * (1 - num/den)` with 0 <= num <= den is a percentage |
| Evaluation.CoverageBounds | src/evaluation.rs:216-217 | the coverage lies in [0, 1] |
| Evaluation.KeystrokeBounds | src/evaluation.rs:228-231 | the keystroke score, floored at 0, is a percentage |
| Evaluation.AverageAtLeastOne | src/evaluation.rs:229 | the average key weight is at least 1 |
| Evaluation.ShiftBalanceFacts | src/evaluation.rs:255-264 | the shift balance is symmetric, is 100 with no shifted keystrokes, is a percentage, and is 100 exactly when both shift layers are used equally |
| Evaluation.RatesBounds | src/evaluation.rs:320-327 | the four 3-gram rates are percentages |
| Evaluation.ScoresOfInRange | src/evaluation.rs:216-265 | from consistent counters and percentage reference scores, every score of the record is a percentage |
| Evaluation.ScaledComplementBounds | src/evaluation.rs:220-222 | a 2-gram complement score scaled by the coverage is a percentage |
| Evaluation.ScaledShareBounds | src/evaluation.rs:246-248 | a 2-gram share scaled by the coverage is a percentage |
| Evaluation.ScoresOfZeroGuards | src/evaluation.rs:220-253 | with no counted 2-gram the 2-gram scores are 0, with an empty corpus the 1-gram scores are 0, with no counted 3-gram the four rates are 0 |
| Evaluation.DotBounds | src/evaluation.rs:127-136 | percentages weighed by positive weights add up to between 0 and 100 times the weight sum |
| Evaluation.WeightedTerm | src/evaluation.rs:127 | one weighted percentage lies between 0 and 100 times its weight |
| Evaluation.DotStep | src/evaluation.rs:127-136 | adding one weighted percentage keeps the running bound |
| Evaluation.DotMonotone | src/evaluation.rs:127-136 | under positive weights larger scores give a larger bonus sum |
| Evaluation.WeightedLe | src/evaluation.rs:127 | a positive weight keeps the order of two scores |
| Evaluation.BonusBounds | src/evaluation.rs:127-140 | with positive weights and percentage scores the additive bonus lies in [0, bonus_scale], and the scale is positive |
| Evaluation.SumPrefixStep | src/evaluation.rs:138-140 | a sum of a prefix grows by its last element |
| Evaluation.BonusWeightSum | src/evaluation.rs:138-140 | the bonus scale's weights are the ten bonus weights |
| Evaluation.FitnessBounds | src/evaluation.rs:142-143 | the fitness lies between the core multiplier and twice it |
| Evaluation.GrowBounds | src/evaluation.rs:143 | core × (1 + q) with q in [0, 1] lies between core and twice it |
| Evaluation.CoreOnlyCore | src/evaluation.rs:108-124 | the core multiplier reads only the five core scores |
| Evaluation.FitnessMonotone | src/evaluation.rs:105-144 | raising bonus scores with the core scores fixed never lowers the fitness |
| Evaluation.DivideMonotone | src/evaluation.rs:143 | dividing by a positive scale keeps order |
| Evaluation.UnitProduct | src/evaluation.rs:118-122 | a product of two factors in (0, 1] stays in (0, 1] |
| Evaluation.CoreNormBounds | src/evaluation.rs:109-113 | a normalised core score of at most 100 lies in [0.01, 1] |
| Evaluation.CoreMultiplierBounds | src/evaluation.rs:108-124 | with core scores at most 100, positive weights and a `powf` that keeps (0, 1], the core multiplier lies in (0, 100] |
| Evaluation.WithWeights | src/evaluation.rs:87-93 | the evaluator holds the corpus, the given weights and the Tsuki reference map |
| Evaluation.NewEvaluator | src/evaluation.rs:78-84 | the evaluator holds the corpus, the default weights (which it can divide by) and the Tsuki reference map |
| Evaluation.UnigramSumsUnique | src/evaluation.rs:163-186 | the 1-gram counters the loop reaches over all keys are determined by the corpus and the index |
| Evaluation.BigramSumsUnique | src/evaluation.rs:189-211 | the 2-gram counters are determined by the corpus and the index |
| Evaluation.TrigramSumsUnique | src/evaluation.rs:276-318 | the 3-gram counters are determined by the corpus and the index |
| Evaluation.LayoutScoresUnique | src/evaluation.rs:147-149 | the scores of a layout depend only on the layout and the evaluator |
| Evaluation.LayoutScoresInRange | src/evaluation.rs:147-266 | with a positive exponential, every score of a layout is a percentage |
| Evaluation.UnigramSumsTotals | src/evaluation.rs:163-186 | the 1-gram counters are the loop's totals over every key of the corpus |
| Evaluation.BigramSumsTotals | src/evaluation.rs:189-211 | the 2-gram counters are the loop's totals over every key |
| Evaluation.TrigramSumsTotals | src/evaluation.rs:276-318 | the 3-gram counters are the loop's totals over every key |
| Evaluation.ComputeScores | src/evaluation.rs:147-266 | the record is the scores of the layout under its character index |
| Evaluation.Evaluate | src/evaluation.rs:96-102 | the layout keeps its cells and stores exactly its scores and the fitness they give, which is returned |
| Evaluation.LayoutFitnessBounds | src/evaluation.rs:96-144 | with positive weights and a sane `powf` and `exp`, a layout's fitness lies in (0, 200] and is at least its core multiplier |
| Evaluation.InRangeFitnessBounds | src/evaluation.rs:105-144 | scores that are all percentages give a fitness in (0, 200] |
| Corpus.HiraganaExcludesPunctuation | src/corpus.rs:26-28 | 、 and 。 and the symbols ；・ are not hiragana, so the extra punctuation test of the kana list changes nothing |
| Corpus.ParseNgramLine | src/corpus.rs:140-148 | a line parses if and only if it has at least two tab fields and the first is a usize; the result is that count and the tab-free second field |
| Corpus.ParseNgramLineRoundTrip | src/corpus.rs:140-148 | a line of a rendered count, a tab-free n-gram and any further tab-free fields parses back to that count and n-gram |
| Corpus.ParseNgramLineExample | src/corpus.rs:267-271 | the line `1234\tあい\t2` parses to (1234, "あい") |
| Corpus.GramEntry | src/corpus.rs:68-70 | an accepted line of the n-gram file yields an n-gram of exactly n characters without 〓 |
| Corpus.CountOccurrences | src/corpus.rs:156-158 | the `entry(c).or_insert(0) += 1` loop maps exactly the items that occur to their number of occurrences, so the counts add up to the length |
| Corpus.CountsOfStep | src/corpus.rs:157 | one increment extends the counts of a sequence by one item |
| Corpus.Firsts | src/corpus.rs:85 | `map(\|(c, _)\| c)` keeps the first components in order |
| Corpus.CollectKanaCounts | src/corpus.rs:179-184 | the filtered iteration lists every kana key of the map exactly once, with its count |
| Corpus.RanksByCountExtend | src/corpus.rs:201-210 | adding counts for other keys keeps a ranking of the kana by count |
| Corpus.HiraganaByFreq | src/corpus.rs:179-186 | the list holds exactly the kana (other than 、。) counted in the map, each once, by non-increasing count |
| Corpus.PermutedFirsts | src/corpus.rs:185 | sorting the pairs keeps their characters |
| Corpus.RankedByCount | src/corpus.rs:185-186 | pairs sorted by count, each with its key's count, list their characters by non-increasing count |
| Corpus.SortedKeepsPairs | src/corpus.rs:185 | sorting keeps every pair holding its key's count and keeps the characters distinct |
| Corpus.AddSymbolChars | src/corpus.rs:201-210 | ； and ・ are present afterwards; existing counts and the other maps are unchanged; a new key is one of them with count 1; the total grows by the number added |
| Corpus.InsertAbsent | src/corpus.rs:204-206 | the key is present afterwards, the old counts are kept, and only the key can be new, with count 1 |
| Corpus.InsertAbsentSum | src/corpus.rs:204-206 | the total grows by one exactly when the key was absent |
| Corpus.WithSymbolCharsUnfold | src/corpus.rs:203 | the loop inserts ； and then ・ |
| Corpus.WithSymbolCharsFacts | src/corpus.rs:203-207 | after the loop both symbols are counted, the old counts are kept, new keys have count 1, and the total grows by the number of symbols that were absent |
| Corpus.CountText | src/corpus.rs:151-186 | the four maps count exactly the windows of 1..4 characters with their occurrences, and the kana list holds each kana of the text once, ranked by count |
| Corpus.CountWindowsOf | src/corpus.rs:161-164 | each `windows(n)` loop counts exactly the windows of size n, each key n characters long |
| Corpus.FromText | src/corpus.rs:151-192 | every character is counted with its occurrences and ；・ are added; the 2-, 3- and 4-gram totals are L-1, L-2, L-3 (0 when shorter); the kana list ranks the text's kana by count |
| Corpus.WindowsOfOne | src/corpus.rs:156-158 | the windows of one character are the characters, with the same counts |
| Corpus.WindowsOfOneCount | src/corpus.rs:156-158 | a one-character window occurs as often as its character |
| Corpus.WindowKeysOfDistinctText | src/corpus.rs:161-176 | in a text of distinct characters every window is its own key, giving L-n+1 keys of size n |
| Corpus.FromTextExample | src/corpus.rs:256-264 | あいうえお has four distinct bigrams and three distinct trigrams |
| Corpus.GramMapShape | src/corpus.rs:93-97 | every key of a loaded n-gram map has n characters and no 〓 |
| Corpus.GramMapLastLine | src/corpus.rs:91-99 | the last line adds its key, if it supplies one, and keeps the others |
| Corpus.GramMapKeys | src/corpus.rs:91-99 | a key is present if and only if some line supplies it |
| Corpus.GramMapLast | src/corpus.rs:96 | a present key has the count of the last line that supplies it (`insert` overwrites) |
| Corpus.KanaOf | src/corpus.rs:70-77 | a 1-gram line adds at most one kana, a hiragana other than 、。, with that line's count |
| Corpus.KanaEntriesFromLines | src/corpus.rs:66-80 | each collected kana entry comes from an accepted line with that line's count |
| Corpus.LoadGrams | src/corpus.rs:88-100 | the line loop builds the n-gram map of its lines |
| Corpus.LoadUnigrams | src/corpus.rs:63-81 | the 1-gram loop builds the 1-gram map and the kana entries in file order |
| Corpus.FromNgramLines | src/corpus.rs:51-136 | each map has the counts of the last line for every key (n characters, no 〓), ； and ・ are in the 1-grams, with count 1 when the file has no line for them, and the kana list is the kana 1-gram lines stably sorted by non-increasing count |
| Common.ParseUsize | src/corpus.rs:143 | `parse::<usize>()` yields only values that fit in 64 bits |
| Common.ParseUsizeRoundTrip | src/corpus.rs:143 | every usize is parsed back from its decimal rendering |
| Common.NatToString | src/corpus.rs:143 | a rendered count is a non-empty string of digits |
| Common.NatToStringValue | src/corpus.rs:143 | the digits of a rendered count have its value |
| Common.SumValuesRemove | src/corpus.rs:213-215 | `values().sum()` does not depend on the order of the keys |
| Common.SumValuesIncrement | src/corpus.rs:157 | incrementing one count adds one to the sum |
| Common.SumValuesEmpty | src/corpus.rs:32-40 | an empty map sums to zero |
| CreateNgram.FilterHiragana | scripts/create_ngram.py:18-25 | keeps exactly the kana (U+3040..U+309F plus 。、ー) of the text, each as often as it occurs, in order |
| CreateNgram.RemoveNewlines | scripts/create_ngram.py:40 | the result holds no newline and every other character as often as the input |
| CreateNgram.FilterIgnoresNewlines | scripts/create_ngram.py:40 | removing newlines before filtering makes no difference to the filtered text |
| CreateNgram.KanaOf | scripts/create_ngram.py:40 | the counted text is the kana filter of the input and holds only kana |
| CreateNgram.Increment | scripts/create_ngram.py:55 | `counter[ngram] += 1` keeps the counter well formed (keys listed once); a new key goes to the end of the insertion order and a known key keeps its place |
| CreateNgram.FirstOccurrencesFacts | scripts/create_ngram.py:55 | the first-insertion order lists every counted key once and nothing else |
| CreateNgram.FirstOccurrencesOrder | scripts/create_ngram.py:55 | in the first-insertion order a key comes before another only when it occurs before every occurrence of the other |
| CreateNgram.IncrementOrder | scripts/create_ngram.py:55 | incrementing a counter whose keys are in first-occurrence order keeps them in first-occurrence order for the extended sequence |
| CreateNgram.IncrementCounts | scripts/create_ngram.py:55 | the count of the key goes up by one, starting from zero for a new key; nothing else changes |
| CreateNgram.CountsSeqStep | scripts/create_ngram.py:55 | incrementing a counter of a sequence of keys gives the counter of that sequence extended by the key |
| CreateNgram.CountsPrefixStep | scripts/create_ngram.py:53-55 | counting the next window of size n extends the counter from the first p windows to the first p+1 |
| CreateNgram.CountsPrefixEmpty | scripts/create_ngram.py:44-49 | a fresh Counter counts zero windows |
| CreateNgram.CountWindow | scripts/create_ngram.py:53-55 | one step of the inner loop leaves four counters |
| CreateNgram.LoopStateStep | scripts/create_ngram.py:52-55 | the inner step for size n keeps the loop invariant and moves it to size n+1 |
| CreateNgram.SlotAdvance | scripts/create_ngram.py:53-55 | the counter of size n moves past the window at i exactly when that window fits |
| CreateNgram.SlotKeep | scripts/create_ngram.py:52-55 | the counters of the other sizes are untouched by the step for size n |
| CreateNgram.LoopStateNext | scripts/create_ngram.py:51-52 | after sizes 1..4 at position i the invariant holds at position i+1, size 1 |
| CreateNgram.LoopStateDone | scripts/create_ngram.py:51 | at the end of the text every counter holds the counts of all windows of its size |
| CreateNgram.LoopStateStart | scripts/create_ngram.py:44-49 | four empty counters satisfy the invariant at the start |
| CreateNgram.CountNgrams | scripts/create_ngram.py:44-55 | the nested loop leaves four well-formed counters, counter n holding the count of every window of size n of the text |
| CreateNgram.Items | scripts/create_ngram.py:62 | `counter.items()` lists each key once, in insertion order, with its count |
| CreateNgram.ItemsOfCounter | scripts/create_ngram.py:62 | the items are exactly the keys paired with their counts |
| CreateNgram.AtLeastFacts | scripts/create_ngram.py:65 | an item is kept if and only if it is an item counted at least `min_count` times |
| CreateNgram.AtLeastSorted | scripts/create_ngram.py:65 | the filter keeps the descending order of the sort |
| CreateNgram.CreateNgrams | scripts/create_ngram.py:28-73 | the four files are produced in order 1..4, each from the counter of its size; the counters count the kana text and list their keys in order of first occurrence, the order the stable sort keeps for equal counts |
| CreateNgram.CountsAllOrder | scripts/create_ngram.py:51-55 | a counter of all windows of a size lists them in order of first occurrence |
| CreateNgram.CountsOfText | scripts/create_ngram.py:51-55 | the counts of size n add up to L-n+1 for a kana text of length L (0 when shorter), and every key is n kana |
| CreateNgram.CountsOfKanaText | scripts/create_ngram.py:54 | every counted key of a kana text is n kana |
| CreateNgram.WindowOfKana | scripts/create_ngram.py:54 | a window `text[i:i+n]` of a kana text is n kana |
| CreateNgram.UnigramCounts | scripts/create_ngram.py:51-55 | a one-character key is counted if and only if it is a kana of the text, and its count is the number of its occurrences |
| CreateNgram.FileEntriesFacts | scripts/create_ngram.py:62-65 | the written entries are in non-increasing count order and are exactly the keys counted at least `min_count` times with their counts |
| CreateNgram.FileLineRoundTrip | scripts/create_ngram.py:69 | the loader of the Rust program reads a written line `count\tngram\tn` back as its count and n-gram, both as a general and as a sized entry |
| ExtractYoon.YoonChars | scripts/extract_yoon_2gram.py:9-11 | the yoon set is 15 distinct characters, none whitespace, tab or 〓; ゃ and ヶ are in it, や and ん are not |
| ExtractYoon.ExtractYoon2grams | scripts/extract_yoon_2gram.py:13-46 | the result is the entries read from the lines whose n-gram is two characters ending in a yoon, or nothing when a count is not an integer |
| ExtractYoon.ExtractedEntries | scripts/extract_yoon_2gram.py:22-31 | every kept entry ends in a yoon, comes from its own line in line order, and every line with such an entry is kept |
| ExtractYoon.OutputLines | scripts/extract_yoon_2gram.py:34-36 | one output line `count\tngram` plus newline per entry, in order |
| ExtractYoon.OutputLineReadBack | scripts/extract_yoon_2gram.py:34-36 | a written line is read back by the merger as the same entry |
| ExtractYoon.OutputReadBack | scripts/extract_yoon_2gram.py:34-36 | reading the whole written file gives back the extracted entries in order |
| ExtractYoon.KeptAllEntries | scripts/extract_yoon_2gram.py:22-31 | lines that are all accepted entries are read back as those entries |
| MergeFrequencies.KeepUnigramCases | scripts/merge_1gram_yoon2gram.py:26 | the substring test drops ょ, ゎ, the empty field and runs such as ょゅ, and keeps あ and ゃょ |
| MergeFrequencies.Tagged | scripts/merge_1gram_yoon2gram.py:27 | every entry becomes a record tagged with its file's size, in order |
| MergeFrequencies.MergeFrequencies | scripts/merge_1gram_yoon2gram.py:9-59 | fails exactly when either file has a non-integer count; otherwise the result is the stable descending merge of the kept 1-grams and the 2-grams |
| MergeFrequencies.MergedFacts | scripts/merge_1gram_yoon2gram.py:39-41 | the merge is a permutation of the tagged records in non-increasing count order, and records with equal counts keep their order (1-grams before 2-grams) |
| MergeFrequencies.MergedRecords | scripts/merge_1gram_yoon2gram.py:39-41 | every merged record is a kept 1-gram tagged 1 or a 2-gram tagged 2 |
| MergeFrequencies.MergedLineParses | scripts/merge_1gram_yoon2gram.py:45-46 | the Rust loader reads a merged line back as its count and gram when the count fits a usize, and refuses a negative count |
| ScriptLines.ReadLine | scripts/merge_1gram_yoon2gram.py:21-25 | a stripped line with fewer than two tab fields is skipped; with a non-integer first field it fails; otherwise it is the entry of its first two fields |
| ScriptLines.ReadAll | scripts/extract_yoon_2gram.py:22-25 | each line is read on its own, in order |
| ScriptLines.KeptPrefixStep | scripts/extract_yoon_2gram.py:23-31 | reading one more line applies that line's effect to the entries read so far |
| ScriptLines.KeptFrom | scripts/extract_yoon_2gram.py:23-31 | the kept line indices are line numbers of the input |
| ScriptLines.ReadEntries | scripts/extract_yoon_2gram.py:23-31 | the line loop computes the kept entries, stopping at the first malformed line |
| ScriptLines.ReadOne | scripts/extract_yoon_2gram.py:24-31 | one pass of the loop applies the line's effect: a malformed line ends the reading, a skipped one changes nothing, an entry is appended when the filter keeps its n-gram |
| ScriptLines.KeptNoneExtends | scripts/extract_yoon_2gram.py:26 | once a malformed line has been read, reading further lines still fails |
| ScriptLines.KeptNoneIff | scripts/extract_yoon_2gram.py:26 | reading fails if and only if some line has two fields and a first field that is not an integer |
| ScriptLines.KeptIsSubsequence | scripts/extract_yoon_2gram.py:23-31 | the kept entries are the entries of the kept lines, in line order, each accepted by the filter |
| ScriptLines.KeptFromFacts | scripts/extract_yoon_2gram.py:23-31 | the kept lines are in increasing order and include every line whose entry the filter accepts |
| ScriptLines.ReadLineRoundTrip | scripts/extract_yoon_2gram.py:36 | a written line `count\tngram[\t...]` with its newline is read back as exactly that entry |
| ScriptLines.IntToStringShape | scripts/extract_yoon_2gram.py:36 | a rendered count is non-empty, starts with a visible character and holds no tab |
| Common.Split | scripts/extract_yoon_2gram.py:24 | `str.split(sep)` returns at least one piece and no piece holds the separator |
| Common.JoinSplit | scripts/extract_yoon_2gram.py:24 | joining the pieces of a split with the separator gives back the string |
| Common.SplitJoin | scripts/extract_yoon_2gram.py:24 | splitting a join of separator-free pieces gives back the pieces |
| Common.ParsePyIntRoundTrip | scripts/extract_yoon_2gram.py:26 | `int()` reads back every rendered integer |
| Common.DigitsArePyDigits | scripts/extract_yoon_2gram.py:26 | a non-empty run of ASCII digits is a digit part `int()` accepts, with no underscore to drop |
| Common.ParsePyIntTrailingSpace | scripts/extract_yoon_2gram.py:26 | `int()` ignores whitespace after the field: `"12 "` is 12 |
| Common.ParsePyIntLeadingTab | scripts/extract_yoon_2gram.py:26 | `int()` ignores whitespace before the sign: `"\t-7"` is −7 |
| Common.ParsePyIntUnderscores | scripts/extract_yoon_2gram.py:26 | `int()` skips an underscore between digits: `"1_000"` is 1000 |
| Common.ParsePyIntRefusesUnderscores | scripts/extract_yoon_2gram.py:26 | `int()` refuses a doubled, a leading and a trailing underscore |
| Common.ParsePyIntRefusesSign | scripts/extract_yoon_2gram.py:26 | `int()` refuses a sign apart from its digits and the empty field |
| Common.Strip | scripts/extract_yoon_2gram.py:24 | `str.strip()` removes leading and trailing whitespace and keeps nothing longer than the input |
| Common.StripLeft | scripts/extract_yoon_2gram.py:24 | the left strip is a suffix of the input that starts with a visible character |
| Common.StripRight | scripts/extract_yoon_2gram.py:24 | the right strip is a prefix of the input that ends with a visible character |
| Common.StripNewlineTerminated | scripts/extract_yoon_2gram.py:24 | stripping a written line removes exactly its newline |
| Common.StripVisible | scripts/extract_yoon_2gram.py:24 | a string that starts and ends with visible characters is its own strip |
| Common.StripTrailing | scripts/extract_yoon_2gram.py:24 | one trailing whitespace character after visible text is removed |
| Common.StripLeading | scripts/extract_yoon_2gram.py:24 | one leading whitespace character before visible text is removed |
| Common.SortByKeyDescFacts | scripts/merge_1gram_yoon2gram.py:41 | Python's stable sort by `-count`: a permutation, in non-increasing key order, keeping the order of equal keys |
| Common.InsertByKeyMultiset | scripts/merge_1gram_yoon2gram.py:41 | one insertion step adds exactly the inserted element |
| Common.InsertByKeySorted | scripts/merge_1gram_yoon2gram.py:41 | one insertion step keeps a sorted list sorted |
| Common.InsertByKeyWithKey | scripts/merge_1gram_yoon2gram.py:41 | one insertion step puts the element before the elements sharing its key and keeps their order |
| Common.Windows | scripts/create_ngram.py:51-54 | the windows of size n are the L-n+1 slices `text[i:i+n]` in order (none when the text is shorter) |
| Export.KeyTablesShaped | src/export.rs:11-22 | the QWERTY and Colemak key tables each have three rows of ten key names |
| Export.LayerScan | src/export.rs:356-364 | the scan of one layer has one entry per key of columns 0 to 9 |
| Export.LayerScanAt | src/export.rs:356-364 | entry `row × 10 + col` of a layer's scan is that layer's cell at that row and column |
| Export.KeyNames | src/export.rs:323-326 | the key names of a table, row-major, number thirty |
| Export.KeyNamesAt | src/export.rs:361 | entry `row × 10 + col` is the table's key at that row and column |
| Export.KeysFor | src/export.rs:323-326 | the chosen key table, QWERTY or Colemak, is a well-shaped table |
| Export.LastKeyDefault | src/export.rs:331-343 | with no shift mark among the cells scanned, the default key remains |
| Export.LastKeyAt | src/export.rs:331-343 | otherwise the key is that of the last cell holding the mark |
| Export.FindShiftKeys | src/export.rs:331-343 | the loop leaves ★'s key and ☆'s key as the last marks found in layer 0, defaulting to d and k |
| Export.AppendEntries | src/export.rs:356-392 | one layer's loop appends exactly that layer's entry lines to those already there |
| Export.ExportTsv | src/export.rs:323-395 | the content is the TSV lines joined by newlines with a final newline |
| Export.EntryLinesMembers | src/export.rs:356-392 | a line is an entry of a layer exactly when some scanned cell is kept and the line is its prefixed key and kana |
| Export.EntryLinesPrefix | src/export.rs:356-392 | scanning further only appends entry lines, so they come in row-major order |
| Export.EntryLinesCount | src/export.rs:356-392 | a layer gives at most one line per key, and exactly one when no cell is skipped |
| Export.TsvLinesLayout | src/export.rs:328-392 | the TSV has a title, then the ★ and ☆ shift lines at fixed places, then the unshifted entries, and twelve fixed lines in all besides the entries |
| Export.UnbrokenConcat | src/export.rs:395 | lines without newlines concatenated stay without newlines |
| Export.KeyNamesPlain | src/export.rs:11-22 | no key name holds a tab or a newline |
| Export.EntryLineSplits | src/export.rs:363 | an entry line splits at its tab into the prefixed key and the kana |
| Export.EntryLinesUnbroken | src/export.rs:356-392 | no entry line holds a newline when no cell or key name does |
| Export.LastKeyPlain | src/export.rs:331-343 | the shift keys found hold no tab or newline |
| Export.TitleTextUnbroken | src/export.rs:328 | the title's fixed texts hold no newline |
| Export.HeaderTextUnbroken | src/export.rs:345 | the shift-key header's fixed texts hold no newline |
| Export.SectionTextUnbroken | src/export.rs:349-383 | the section headers' fixed texts hold no newline |
| Export.HeaderUnbroken | src/export.rs:328-369 | the header and section lines hold no newline |
| Export.TsvLinesUnbroken | src/export.rs:328-392 | on cells without tabs or newlines no TSV line holds a newline |
| Export.TsvRoundTrip | src/export.rs:395 | the content ends in a newline, and cutting it off and splitting at newlines gives back exactly the lines |
| Export.AnalyzerFingerAsWritten | src/export.rs:167 | as written the analyzer finger is min(col, 3) for col < 5 and 6 + min(col − 5, 3) otherwise |
| Export.AnalyzerFingerColumnSix | src/export.rs:167 | as written column 6 gets finger 7, though the layout gives it the index finger and its mirror column 3 gets 3 |
| Export.AnalyzerFinger | src/export.rs:167 | the corrected analyzer finger is 0 to 3 on the left hand and 6 to 9 on the right |
| Export.AnalyzerFingerMatchesLayout | src/layout.rs:140-153 | the corrected finger is the layout's finger on the left and its mirror on the right, and mirroring the column mirrors the finger |
| Export.AnalyzerHomeMirror | src/export.rs:188 | the home marks of the analyzer's middle row are mirror-symmetric and fall on fingers 0, 3, 6 or 9 |
| Export.AnalyzerFingerDiffers | src/export.rs:167 | the program's finger and the mirrored one differ exactly on columns 6 to 8, where the program's is one higher |
| Export.AnalyzerLetterRow | src/export.rs:161-218 | each of the ten letter keys of a row carries its QWERTY id, the three layers' cells, its finger and, on the middle row, its home mark; the finger is the program's `6 + min(col − 5, 3)` numbering when `asWritten` holds and the mirrored correction otherwise |
| Export.InsertBase | src/export.rs:252-268 | the layer-0 loop builds exactly the base conversion table |
| Export.InsertShifted | src/export.rs:270-307 | a shifted layer's loop builds exactly the shifted extension of the table |
| Export.BuildConversion | src/export.rs:233-307 | the three loops build exactly the conversion table of the layout |
| Export.BaseConversionKeys | src/export.rs:252-268 | a kana is in the base table exactly when a kept layer-0 cell holds it, and it has no shift key |
| Export.BaseConversionAt | src/export.rs:258-266 | a kana maps to its last layer-0 key, since each insertion overwrites |
| Export.ShiftConversionKeys | src/export.rs:277-286 | a shifted layer keeps every existing entry and adds exactly its kept kana not already present |
| Export.ShiftConversionAt | src/export.rs:277-286 | a kana added by a shifted layer maps to its first key there with that layer's shift key |
| Export.EarlierLayersWin | src/export.rs:252-307 | a kana of layer 0 stays unshifted, a kana first seen on layer 1 gets ☆'s key, one first seen on layer 2 gets ★'s key, and no other kana is present |
| Export.ShiftEntriesHeld | src/export.rs:277-306 | every entry a shifted layer adds carries that layer's shift key |
| Export.KeyCode | src/export.rs:71-84 | a lower-case letter is its own key code and - is "hyphen" |
| Export.KeyCodeInverse | src/export.rs:71-84 | the key code determines its character |
| Export.RomajiToKeycode | src/export.rs:71-84 | there is one key code per character, each that character's code |
| Export.KeycodesToRomaji | src/export.rs:71-84 | reading key codes back gives one character per code |
| Export.KeycodeRoundTrip | src/export.rs:71-84 | reading back the key codes of a romaji string gives the string |
| Export.SeionRomaji | src/export.rs:27-45 | every plain kana's romaji is typed on letters and - only |
| Export.DakuonRomaji | src/export.rs:46-55 | every voiced kana's romaji is typed on letters only |
| Export.HandakuonRomaji | src/export.rs:56-58 | every half-voiced kana's romaji is typed on letters only |
| Export.KogakiRomaji | src/export.rs:59-63 | every small kana's romaji is typed on letters only |
| Export.SpecialRomaji | src/export.rs:64-67 | ー, ゔ and ヴ have romaji typed on letters and - |
| Export.KanaToRomaji | src/export.rs:25-69 | every romaji of the table is typed on letters and - |
| Export.KanaToRomajiKeycodes | src/export.rs:25-84 | every kana of the table becomes at least one key code, each a letter or "hyphen" |
| RomajiTable.ColemakCharsBijective | scripts/generate_romaji_table.py:17-26 | the one-character part of the QWERTY-to-Colemak map and its inverse are defined on the same keys and undo each other |
| RomajiTable.ColemakMapBijective | scripts/generate_romaji_table.py:17-26 | the whole QWERTY-to-Colemak map, including space, is a bijection on its 37 keys |
| RomajiTable.ConvertKey | scripts/generate_romaji_table.py:92-96 | without Colemak a key is kept; with Colemak it is mapped when the table has it and kept otherwise |
| RomajiTable.ConvertKeyInjective | scripts/generate_romaji_table.py:92-96 | different keys never convert to the same key |
| RomajiTable.ConvertMatchesKeyTables | scripts/generate_romaji_table.py:17-26 | converting the QWERTY key of any of the thirty letter cells gives the Colemak key of the same cell, as in the Rust key tables of src/export.rs:11-22 |
| RomajiTable.ConvertAll | scripts/generate_romaji_table.py:327-328 | a key list is converted key by key |
| RomajiTable.ConvertedMembership | scripts/generate_romaji_table.py:355-357 | a converted key is among the converted keys exactly when the key is among the keys |
| RomajiTable.KeycodeRoundTrip | scripts/generate_romaji_table.py:242-257 | every one-character key and space can be read back from its Karabiner key code |
| RomajiTable.Lookup | scripts/generate_romaji_table.py:29-61 | a dictionary lookup finds a pair with that key, or reports that no pair has it |
| RomajiTable.LookupAt | scripts/generate_romaji_table.py:29-61 | a lookup returns the value of the first pair with that key |
| RomajiTable.HandakutenThroughDakuten | scripts/generate_romaji_table.py:29-45 | for each of は ひ ふ へ ほ, voicing it and pressing ゛ again gives its half-voiced kana |
| RomajiTable.VoicedHaRow | scripts/generate_romaji_table.py:29-35 | the voiced kana of the i-th は-row kana is the i-th key of the second-press table |
| RomajiTable.HalfVoicedBaRow | scripts/generate_romaji_table.py:38-45 | the second press on the i-th voiced kana gives the i-th half-voiced kana |
| RomajiTable.NoHaRowBefore | scripts/generate_romaji_table.py:29-35 | は-row kana occur in the voicing table only at their own entries, which pair them with the voiced kana |
| RomajiTable.VowelKogakiAgrees | scripts/generate_romaji_table.py:47-61 | the second-press small vowels agree with the small-kana table |
| RomajiTable.ScriptRomaji | scripts/generate_romaji_table.py:63-83 | every romaji of the script's table is typed on letters and - only |
| RomajiTable.HazkeySlotOf | scripts/generate_romaji_table.py:125-164 | an entry is stored only when it has keys and under its first key; apart from the symbols kept as they are, only single-key entries whose character is not skipped are stored, and in the slot their shift keys select |
| RomajiTable.Store | scripts/generate_romaji_table.py:125-164 | storing sets one key of one slot's map and leaves the other slots alone |
| RomajiTable.SlotMapsStep | scripts/generate_romaji_table.py:125-164 | one more entry sets its own key of its own slot and leaves every other key |
| RomajiTable.SlotMapsKeys | scripts/generate_romaji_table.py:125-164 | a key is in a slot's map exactly when some entry stores into it |
| RomajiTable.SlotMapsLast | scripts/generate_romaji_table.py:125-164 | a key's character is that of the last entry storing into it |
| RomajiTable.BuildSlotMaps | scripts/generate_romaji_table.py:119-164 | the classification loop builds exactly those five maps |
| RomajiTable.SectionLine | scripts/generate_romaji_table.py:169-198 | one key of a section gives at most one line |
| RomajiTable.SectionLines | scripts/generate_romaji_table.py:169-233 | a section gives at most one line per key |
| RomajiTable.KeyedLinesCount | scripts/generate_romaji_table.py:177-180 | a prefixed section gives one line per key its map holds |
| RomajiTable.PairLines | scripts/generate_romaji_table.py:204-218 | a postfix table gives one line per pair, kana then ゛ key then result |
| RomajiTable.PostfixLayout | scripts/generate_romaji_table.py:200-218 | the postfix block is the ★ ゛ line for わ followed by one line per voicing entry and then the second-press tables |
| RomajiTable.HazkeyLinesLayout | scripts/generate_romaji_table.py:166-237 | the postfix block follows the four head sections, and the last two lines are ☆☆ → も and ★★ → ら |
| RomajiTable.AppendSection | scripts/generate_romaji_table.py:169-198 | a section's loop appends exactly that section's lines |
| RomajiTable.AppendPairs | scripts/generate_romaji_table.py:204-218 | a postfix table's loop appends exactly its lines |
| RomajiTable.AppendHead | scripts/generate_romaji_table.py:168-198 | the four head loops give exactly the head lines |
| RomajiTable.AppendPostfix | scripts/generate_romaji_table.py:200-218 | the postfix loops append exactly the postfix block |
| RomajiTable.AppendYoon | scripts/generate_romaji_table.py:220-233 | the yoon loops append exactly the yoon lines |
| RomajiTable.GenerateHazkeyAnsi | scripts/generate_romaji_table.py:99-239 | the text is the table's lines joined by newlines with a final newline |
| RomajiTable.ShiftStateMatchesSlot | scripts/generate_romaji_table.py:355-368 | the Karabiner shift state of an entry is the one its hazkey slot stands for, and an entry without shift has none |
| RomajiTable.RomajiKeys | scripts/generate_romaji_table.py:331-335 | romaji becomes one key code per character, - as hyphen |
| RomajiTable.CharManipulatorFacts | scripts/generate_romaji_table.py:312-380 | a character gets a manipulator only when it has romaji and one key, which it types and then resets the shift state, under a condition on states 0 to 4, fired by its converted key |
| RomajiTable.CharManipulators | scripts/generate_romaji_table.py:312-380 | there is at most one manipulator per entry |
| RomajiTable.CharManipulatorsMembers | scripts/generate_romaji_table.py:312-380 | the manipulators are exactly those of the entries that have one |
| RomajiTable.ShiftKeys | scripts/generate_romaji_table.py:269-271 | the ★, ☆ and ゛ keys are d, k and l, or s, e and i with Colemak, and are their own key codes |
| RomajiTable.FireFrom | scripts/generate_romaji_table.py:274-390 | the manipulator that fires is one of the list that applies to the state and the key |
| RomajiTable.Fire | scripts/generate_romaji_table.py:274-390 | the same from the start of the list |
| RomajiTable.KarabinerShiftTransitions | scripts/generate_romaji_table.py:274-309 | ★ fires the first manipulator from state 0 setting 1, ☆ the second setting 2, and ゛ from states 1 and 2 the third and fourth, setting 3 and 4 |
| RomajiTable.FireThroughShifts | scripts/generate_romaji_table.py:274-309 | whatever follows, the four shift manipulators fire first on their keys and states |
| RomajiTable.KarabinerEscapeResets | scripts/generate_romaji_table.py:383-390 | the last manipulator is the escape reset, and escape fires it in every state when no entry's key is escape |
| RomajiTable.FireSkips | scripts/generate_romaji_table.py:274-390 | manipulators from another key do not change which one fires |
| RomajiTable.GenerateKarabinerJson | scripts/generate_romaji_table.py:260-398 | the result is one rule holding the description and the manipulators in order |
| Tui.Improve | src/tui.rs:116-119 | the best fitness becomes the larger of the old best and the offered fitness, and the layout is replaced only on strict improvement |
| Tui.ImproveCommutes | src/tui.rs:116-119 | the best fitness after two offers does not depend on their order |
| Tui.ImproveIdle | src/tui.rs:116-119 | an offer no better than the best changes nothing |
| Tui.FreshRunStates | src/tui.rs:86-92 | multi-run mode starts min(total_runs, 4) slots, slot i holding (i, 0, no layout) |
| Tui.OfferToRun | src/tui.rs:96-102 | an offer to an existing slot improves that slot only; an out-of-range run id leaves every slot as it was |
| Tui.OfferToRunMonotone | src/tui.rs:96-102 | no slot's best fitness ever drops |
| Tui.NextViewMode | src/tui.rs:1366-1369 | the view mode stays one of 0, 1, 2 |
| Tui.ViewModeCycle | src/tui.rs:1366-1369 | the view mode cycles 0 → 1 → 2 → 0 and always changes |
| Tui.Toggled | src/tui.rs:1370-1381 | a panel key flips exactly its own panel flag |
| Tui.ToggleTwice | src/tui.rs:1370-1381 | pressing the same panel key twice restores the flags |
| Tui.PanelOfKey | src/tui.rs:1370-1381 | the keys 1, 2, 3 and only they select a panel, one of the three |
| Tui.TuiState.NewWithDebug | src/tui.rs:62-83 | a fresh state is at generation 0 with no best, an empty history, running, the given debug flag, no runs, the seed layout as the initial layout, view mode 0 and every panel shown |
| Tui.TuiState.New | src/tui.rs:58-60 | the plain constructor is the debug constructor with debugging off |
| Tui.TuiState.EnableMultiRun | src/tui.rs:86-92 | only the multi-run flag, the run total and fresh per-run slots change |
| Tui.TuiState.UpdateMultiRun | src/tui.rs:95-108 | only the per-run slots and the global best change, each by an improving offer |
| Tui.TuiState.Update | src/tui.rs:114-128 | the generation is set, best and second best take improving offers, exactly one fitness is appended to the history, and nothing else changes |
| Tui.TuiState.HandleKey | src/tui.rs:1360-1389 | q stops the display and quits, i advances the view mode, 1 to 3 flip one panel each, and any other key changes nothing |
| Tui.LayerRowCol | src/tui.rs:546-548 | every index of a layer's 31 keys is one row and column within that row's width |
| Tui.PhonemeScoreSteps | src/tui.rs:578-601 | a phoneme score lies in [0, 1], reaches 1 exactly on its Colemak key, and is at most 0.5 otherwise |
| Tui.PhonemeMatchPerfect | src/tui.rs:565-635 | a symbol is skipped exactly when it has no phoneme, and is perfect exactly when each of its phonemes is on its Colemak key, because 1.8 is reachable only by 1 + 1 |
| Tui.PhonemeMatchPartial | src/tui.rs:624-635 | a consonant-vowel symbol is partial exactly when one of its two phonemes is on its Colemak key and the other is not |
| Tui.LayerKinds | src/tui.rs:546-548 | one layer is judged key by key, 31 keys |
| Tui.LayerKindsAt | src/tui.rs:549-635 | each key's judgement is that of its own cell at its row and column |
| Tui.KindCount | src/tui.rs:572-634 | no more keys of a kind than keys |
| Tui.KindCountsBound | src/tui.rs:572-634 | perfect, partial and skipped keys together are at most the keys |
| Tui.ColemakKinds | src/tui.rs:545-638 | all four layers are judged, each as its own layer |
| Tui.LayersCountsBound | src/tui.rs:545-638 | over the four layers perfect, partial and skipped keys together are at most the cells |
| Tui.TallyLayer | src/tui.rs:546-637 | one layer adds its perfect, partial and non-skipped keys to the counters and its perfect keys to its own slot |
| Tui.CalcColemakMatchDetail | src/tui.rs:529-641 | the counts are those of the four layers' judgements, perfect plus partial is at most the total, and the per-layer perfect counts add up to the perfect count |
| Tui.TallyLayers | src/tui.rs:539-640 | the loop over four layers gives exactly those counts and their bounds |
| Tui.TsukiFace | src/tui.rs:649-660 | each Tsuki face has thirty keys |
| Tui.TsukiTally | src/tui.rs:671-693 | matches are at most the compared keys, at most the keys scanned |
| Tui.TsukiTallyAllMatched | src/tui.rs:671-693 | all compared keys match exactly when every compared key holds the Tsuki character of that key |
| Tui.TsukiLayerTally | src/tui.rs:664-694 | each layer's match count is at most its compared count, at most thirty |
| Tui.TallyFace | src/tui.rs:669-694 | the scan of one layer gives that layer's tally |
| Tui.CalcTsukiMatchDetail | src/tui.rs:645-697 | layer 0 is compared with the front face and layers 1 to 3 with the back face, and each layer's matches are at most its compared keys |

## Left out

- File and terminal I/O are not modelled: `File::open` and line reading in `src/corpus.rs`, `std::fs::write` in `src/export.rs`, and every `open`/`print` and the JSON loading in the scripts. The per-line and per-file logic is modelled over in-memory sequences and strings.
- `src/main.rs` is not part of this model: argument parsing, progress bars, the Ctrl-C handler, saving and the orchestration of runs.
- Concurrency is not modelled: `run_multi` (rayon, seeds from `thread_rng`), the multi-run TUI driver (`Arc`/`Mutex`/atomics) and the TUI thread's locking and sleeping. The key handling of that thread is modelled as `Tui.TuiState.HandleKey` on one state.
- Rendering is not modelled: all ratatui/crossterm drawing in `src/tui.rs` and its debug panel's own recomputation of the scores.
- Floating point is modelled as exact `real` arithmetic; rounding, NaN and infinities are not represented.
- `ln`, `exp` and `powf` are uninterpreted functions passed as `Math`. Only what the proofs assume of them (a positive exponential, a `powf` that keeps (0, 1]) is stated, and the geometric means are not evaluated.
- Genetic.SummarizeResults: returns the variance, not its square root (`sqrt` is not modelled), and requires a non-empty list of runs, since the source indexes `results[0]` and divides by zero on an empty one.
- Common.ParsePyInt: accepts ASCII decimal digits only; Python's `int()` also takes decimal digits of other scripts (such as full-width `１２`). ScriptLines.ReadLine, ScriptLines.KeptNoneIff, ExtractYoon.ExtractYoon2grams and MergeFrequencies.MergeFrequencies inherit this: a count written in such digits is a failure in the model.
- Genetic.GeneticAlgorithm.RunWithCallback: requires a positive population size or elite count when there is a generation to run, because with both zero the source indexes an empty population.
- The ChaCha8 generator's internals are not modelled (`Random.Rng` hands out a fixed stream of draws fixed by the seed). `SliceRandom::shuffle` is modelled as rand's Fisher–Yates driven by those draws.
- Hash-map iteration order is not fixed by the model: each hash-map loop takes its entries in an arbitrary order, and its results are proved independent of that order.
- The callback of `run_with_callback` is modelled by returning the sequence of its arguments, not by calling a function.
- `TuiState` keeps the fields the update methods touch; `weights`, `corpus_stats` and `set_weights` are not modelled, because only rendering reads them.
- `export_json`, `export_karabiner` (the Rust Karabiner exporter), `export_all` and its timestamp are not modelled. Of `export_analyzer_json` the conversion section and the thirty letter keys are modelled, not the fixed number-row and modifier keys or the JSON value construction.
- The Karabiner `modifiers` field (optional caps lock) and the field names of the generated JSON are not modelled; a manipulator is its key code, optional condition, output key codes and the state it sets.
- `Layout::format`, `ValidationResult::print_report` and `Layout::random` (a wrapper of `random_with_chars` with the default list) print or format only, and are not modelled.
- The corpus test that expects five 1-gram keys after `from_text("あいうえお")` is not encoded: `add_symbol_chars` always adds `；` and `・`, so the model gives seven.
- A doc comment in `src/evaluation.rs` says the shifted layers weigh 80% in the Colemak similarity; the code uses 0.3, and the model follows the code.
- The Python script's romaji table differs from the Rust one (ふ is `hu` there and `fu` here, and only the Rust table has ヴ). Each is modelled as written, in `RomajiTable.ScriptRomaji` and `Export.KanaToRomaji`.

## Notes on the source as modelled

- The genetic operators visit columns 0 to 9 only. A crossover child starts from the all-blank default layout, so the fixed symbols of the eleventh key (ー on layer 0, ・ on layer 1 and ; on layer 3) are blank in every child. The model keeps this behaviour (`GaOperators.Mix`).
- The repair's skip list names the full-width `；`, while the fixed symbol on layer 3 is the ASCII `;`. That cell lies in column 10 and is never scanned, so the difference has no effect.
- The exporters and the Tsuki comparison of the TUI scan columns 0 to 9. The Colemak comparison of the TUI scans all eleven keys of the home row.

## Findings

| source | as written | input that shows it | evidently intended | confidence | as-written member | corrected member |
|---|---|---|---|---|---|---|
| src/evaluation.rs:349 | `BASE_COST[pos.row][pos.col]` indexes a ten-column table with keys of the eleven-key home row, which panics | the seed layout `improved_custom`, whose ☆ layer has ・ at row 1, column 10, with a corpus containing ・ (which `add_symbol_chars` always adds) | keys outside the table take no part in the score | not executed | PositionCost.CalcPositionCostAsWritten (counterexample PositionCost.SeedLayoutOutOfTable) | PositionCost.CalcPositionCost |
| src/export.rs:167 | the right-hand analyzer finger is `6 + min(col − 5, 3)`, so column 6, an index-finger key, gets finger 7 (the same expression appears at src/export.rs:187 and 211) | column 6 of any letter row: as written 7, while the number-row key above it (src/export.rs:151) and the layout's own finger table give the index finger, 6 | the right hand mirrors the left: `9 − min(9 − col, 3)` for col ≥ 5 | not executed | Export.AnalyzerFingerAsWritten (counterexample Export.AnalyzerFingerColumnSix), used by Export.AnalyzerLetterRow with `asWritten` | Export.AnalyzerFinger |
