/** The counting half of the evaluator: every 1-, 2- and 3-gram of the corpus
    whose characters the layout places is classified by the keys that type it
    (home row, shift layer, same finger, row skip, alternation, roll, redirect,
    in-roll, arpeggio), and the classified counts are added up. The n-gram maps
    are hash maps, so their entries are visited in no fixed order; each counter
    is proved equal to the order-free total of its per-entry contributions. */
module NgramScores {
  import opened Common
  import opened Layouts
  import opened Totals

  /** The evaluator's index from a character to the first key that types it. */
  type CharMap = map<char, KeyPos>

  /** The key of the `j`-th character of an n-gram, when the layout has one. */
  function PosOf(charMap: CharMap, gram: string, j: nat): (r: Option<KeyPos>)
    ensures r.Some? <==> j < |gram| && gram[j] in charMap
  {
    if j < |gram| && gram[j] in charMap then Some(charMap[gram[j]]) else None
  }

  /** `count as f64`. */
  function CountOf(freq: map<string, nat>, gram: string): (r: real)
    ensures r >= 0.0
  {
    if gram in freq then freq[gram] as real else 0.0
  }

  // ---------------------------------------------------------------------------
  // 1-grams
  // ---------------------------------------------------------------------------

  datatype UnigramCounts = UnigramCounts(
    totalKeystrokes: real, home: real, shifted: real, single: real,
    layer1: real, layer2: real, totalChars: real, missing: real)

  const UNIGRAM_ZERO := UnigramCounts(0.0, 0.0, 0.0, 0.0, 0.0, 0.0, 0.0, 0.0)

  /** The body of the 1-gram loop: a character the layout places adds its
      count to the typed total, its key weight times the count to the
      keystroke total, and its count to the home, shifted/layer or single
      counter its key belongs to; any other character is missing. */
  function AddUnigram(acc: UnigramCounts, count: real, pos: Option<KeyPos>): UnigramCounts
  {
    match pos
    case Some(p) =>
      acc.(totalChars := acc.totalChars + count,
           totalKeystrokes := acc.totalKeystrokes + p.Weight() * count,
           home := if p.IsHome() then acc.home + count else acc.home,
           shifted := if p.layer > 0 then acc.shifted + count else acc.shifted,
           layer1 := if p.layer > 0 && p.layer == 1 then acc.layer1 + count else acc.layer1,
           layer2 := if p.layer > 0 && p.layer != 1 && p.layer == 2 then acc.layer2 + count else acc.layer2,
           single := if p.layer > 0 then acc.single else acc.single + count)
    case None => acc.(missing := acc.missing + count)
  }

  datatype UnigramField = TotalKeystrokes | Home | Shifted | Single | Layer1 | Layer2 | TotalChars | Missing

  function UnigramGet(u: UnigramCounts, field: UnigramField): real
  {
    match field
    case TotalKeystrokes => u.totalKeystrokes
    case Home => u.home
    case Shifted => u.shifted
    case Single => u.single
    case Layer1 => u.layer1
    case Layer2 => u.layer2
    case TotalChars => u.totalChars
    case Missing => u.missing
  }

  /** What one character typed `count` times at `pos` adds to one counter. */
  function UnigramContribution(count: real, pos: Option<KeyPos>, field: UnigramField): real
  {
    UnigramGet(AddUnigram(UNIGRAM_ZERO, count, pos), field)
  }

  /** What one entry of the 1-gram map adds to one counter. */
  function UnigramTerm(freq: map<string, nat>, charMap: CharMap, field: UnigramField): string -> real
  {
    gram => UnigramContribution(CountOf(freq, gram), PosOf(charMap, gram, 0), field)
  }

  /** `u` holds, counter by counter, the totals of the contributions of the
      1-gram entries `keys`, taken in any order. */
  ghost predicate UnigramTotals(u: UnigramCounts, keys: set<string>, freq: map<string, nat>, charMap: CharMap)
  {
    forall field :: UnigramGet(u, field) == Total(keys, UnigramTerm(freq, charMap, field))
  }

  /** Adding an entry's contribution is adding it counter by counter. */
  lemma AddUnigramLinear(acc: UnigramCounts, count: real, pos: Option<KeyPos>, field: UnigramField)
    ensures UnigramGet(AddUnigram(acc, count, pos), field)
            == UnigramGet(acc, field) + UnigramContribution(count, pos, field)
  {
  }

  lemma UnigramTotalsInsert(u: UnigramCounts, keys: set<string>, freq: map<string, nat>, charMap: CharMap, gram: string)
    requires gram !in keys && UnigramTotals(u, keys, freq, charMap)
    ensures UnigramTotals(AddUnigram(u, CountOf(freq, gram), PosOf(charMap, gram, 0)), keys + {gram}, freq, charMap)
  {
    forall field: UnigramField
      ensures UnigramGet(AddUnigram(u, CountOf(freq, gram), PosOf(charMap, gram, 0)), field)
              == Total(keys + {gram}, UnigramTerm(freq, charMap, field))
    {
      TotalInsert(keys, UnigramTerm(freq, charMap, field), gram);
      AddUnigramLinear(u, CountOf(freq, gram), PosOf(charMap, gram, 0), field);
    }
  }

  /** The 1-gram loop of `compute_scores`: each counter is the total of the
      entries' contributions over the whole map. */
  method CountUnigrams(freq: map<string, nat>, charMap: CharMap) returns (u: UnigramCounts)
    ensures UnigramTotals(u, freq.Keys, freq, charMap)
  {
    u := UNIGRAM_ZERO;
    var visited: set<string> := {};
    var remaining := freq.Keys;
    while remaining != {}
      invariant visited + remaining == freq.Keys && visited !! remaining
      invariant UnigramTotals(u, visited, freq, charMap)
      decreases |remaining|
    {
      var gram :| gram in remaining;
      UnigramTotalsInsert(u, visited, freq, charMap, gram);
      u := AddUnigram(u, freq[gram] as real, PosOf(charMap, gram, 0));
      visited := visited + {gram};
      remaining := remaining - {gram};
    }
  }

  /** How the 1-gram counters relate: typed characters are single or shifted,
      the two plain shift layers are part of the shifted count, home-row
      characters are part of the typed ones, every typed keystroke weighs at
      least 1, and typed plus missing is the whole corpus. */
  ghost predicate UnigramSane(u: UnigramCounts)
  {
    u.single >= 0.0 && u.shifted >= 0.0 && u.home >= 0.0 && u.layer1 >= 0.0 && u.layer2 >= 0.0
    && u.missing >= 0.0
    && u.single + u.shifted == u.totalChars
    && u.layer1 + u.layer2 <= u.shifted
    && u.home <= u.totalChars
    && u.totalChars <= u.totalKeystrokes
  }

  /** One character's contributions already relate as the counters do. */
  lemma UnigramContributionFacts(count: real, pos: Option<KeyPos>)
    requires count >= 0.0
    ensures UnigramContribution(count, pos, Single) >= 0.0 && UnigramContribution(count, pos, Shifted) >= 0.0
    ensures UnigramContribution(count, pos, Home) >= 0.0 && UnigramContribution(count, pos, Missing) >= 0.0
    ensures UnigramContribution(count, pos, Layer1) >= 0.0 && UnigramContribution(count, pos, Layer2) >= 0.0
    ensures UnigramContribution(count, pos, TotalChars)
            == UnigramContribution(count, pos, Single) + UnigramContribution(count, pos, Shifted)
    ensures UnigramContribution(count, pos, Home) <= UnigramContribution(count, pos, TotalChars)
    ensures UnigramContribution(count, pos, Layer1) + UnigramContribution(count, pos, Layer2)
            <= UnigramContribution(count, pos, Shifted)
    ensures UnigramContribution(count, pos, TotalChars) <= UnigramContribution(count, pos, TotalKeystrokes)
    ensures count == UnigramContribution(count, pos, TotalChars) + UnigramContribution(count, pos, Missing)
  {
    if pos.Some? {
      WeightScales(pos.value, count);
    }
  }

  lemma WeightScales(p: KeyPos, count: real)
    requires count >= 0.0
    ensures p.Weight() * count >= count
  {
    var w := p.Weight();
    WeightBounds(p);
    assert w * count == count + (w - 1.0) * count;
  }

  lemma UnigramTermFacts(freq: map<string, nat>, charMap: CharMap, gram: string)
    ensures UnigramTerm(freq, charMap, Single)(gram) >= 0.0 && UnigramTerm(freq, charMap, Shifted)(gram) >= 0.0
    ensures UnigramTerm(freq, charMap, Home)(gram) >= 0.0 && UnigramTerm(freq, charMap, Missing)(gram) >= 0.0
    ensures UnigramTerm(freq, charMap, Layer1)(gram) >= 0.0 && UnigramTerm(freq, charMap, Layer2)(gram) >= 0.0
    ensures UnigramTerm(freq, charMap, TotalChars)(gram)
            == UnigramTerm(freq, charMap, Single)(gram) + UnigramTerm(freq, charMap, Shifted)(gram)
    ensures UnigramTerm(freq, charMap, Home)(gram) <= UnigramTerm(freq, charMap, TotalChars)(gram)
    ensures UnigramTerm(freq, charMap, Layer1)(gram) + UnigramTerm(freq, charMap, Layer2)(gram)
            <= UnigramTerm(freq, charMap, Shifted)(gram)
    ensures UnigramTerm(freq, charMap, TotalChars)(gram) <= UnigramTerm(freq, charMap, TotalKeystrokes)(gram)
    ensures CountOf(freq, gram) == UnigramTerm(freq, charMap, TotalChars)(gram) + UnigramTerm(freq, charMap, Missing)(gram)
  {
    UnigramContributionFacts(CountOf(freq, gram), PosOf(charMap, gram, 0));
  }

  /** What `compute_scores` relies on about the 1-gram counters. */
  lemma UnigramTotalsSane(u: UnigramCounts, keys: set<string>, freq: map<string, nat>, charMap: CharMap)
    requires UnigramTotals(u, keys, freq, charMap)
    ensures UnigramSane(u)
    ensures u.totalChars + u.missing == Total(keys, (gram: string) => CountOf(freq, gram))
  {
    forall gram | gram in keys {
      UnigramTermFacts(freq, charMap, gram);
    }
    assert UnigramGet(u, Single) == u.single && UnigramGet(u, Shifted) == u.shifted;
    assert UnigramGet(u, Home) == u.home && UnigramGet(u, Missing) == u.missing;
    assert UnigramGet(u, Layer1) == u.layer1 && UnigramGet(u, Layer2) == u.layer2;
    assert UnigramGet(u, TotalChars) == u.totalChars && UnigramGet(u, TotalKeystrokes) == u.totalKeystrokes;
    TotalNonNegative(keys, UnigramTerm(freq, charMap, Single));
    TotalNonNegative(keys, UnigramTerm(freq, charMap, Shifted));
    TotalNonNegative(keys, UnigramTerm(freq, charMap, Home));
    TotalNonNegative(keys, UnigramTerm(freq, charMap, Layer1));
    TotalNonNegative(keys, UnigramTerm(freq, charMap, Layer2));
    TotalNonNegative(keys, UnigramTerm(freq, charMap, Missing));
    TotalLinear(keys, UnigramTerm(freq, charMap, Single), UnigramTerm(freq, charMap, Shifted), UnigramTerm(freq, charMap, TotalChars));
    TotalMono(keys, UnigramTerm(freq, charMap, Home), UnigramTerm(freq, charMap, TotalChars));
    TotalMono(keys, UnigramTerm(freq, charMap, TotalChars), UnigramTerm(freq, charMap, TotalKeystrokes));
    UnigramLayers(keys, freq, charMap);
    TotalLinear(keys, UnigramTerm(freq, charMap, TotalChars), UnigramTerm(freq, charMap, Missing), (gram: string) => CountOf(freq, gram));
  }

  lemma UnigramLayers(keys: set<string>, freq: map<string, nat>, charMap: CharMap)
    requires forall gram :: gram in keys ==>
      UnigramTerm(freq, charMap, Layer1)(gram) + UnigramTerm(freq, charMap, Layer2)(gram) <= UnigramTerm(freq, charMap, Shifted)(gram)
    ensures Total(keys, UnigramTerm(freq, charMap, Layer1)) + Total(keys, UnigramTerm(freq, charMap, Layer2))
            <= Total(keys, UnigramTerm(freq, charMap, Shifted))
  {
    var both := (gram: string) => UnigramTerm(freq, charMap, Layer1)(gram) + UnigramTerm(freq, charMap, Layer2)(gram);
    TotalLinear(keys, UnigramTerm(freq, charMap, Layer1), UnigramTerm(freq, charMap, Layer2), both);
    TotalMono(keys, both, UnigramTerm(freq, charMap, Shifted));
  }

  // ---------------------------------------------------------------------------
  // 2-grams
  // ---------------------------------------------------------------------------

  /** Two keys typed by the same finger of the same hand. */
  predicate SameFinger(p1: KeyPos, p2: KeyPos)
  {
    p1.IsLeftHand() == p2.IsLeftHand() && p1.Finger() == p2.Finger()
  }

  /** `(row1 as i32 - row2 as i32).abs()`; rows are tiny, so nothing wraps. */
  function RowDistance(p1: KeyPos, p2: KeyPos): nat
  {
    if p1.row >= p2.row then p1.row - p2.row else p2.row - p1.row
  }

  /** A same-finger pair that jumps over a row. */
  predicate RowSkip(p1: KeyPos, p2: KeyPos)
  {
    SameFinger(p1, p2) && RowDistance(p1, p2) > 1
  }

  /** A pair typed by the two hands in turn. */
  predicate Alternating(p1: KeyPos, p2: KeyPos)
  {
    p1.IsLeftHand() != p2.IsLeftHand()
  }

  /** None of the pair kinds depends on the order of the two keys, a row skip is
      a same-finger pair, and alternation excludes the same finger. */
  lemma BigramKinds(p1: KeyPos, p2: KeyPos)
    ensures SameFinger(p1, p2) == SameFinger(p2, p1)
    ensures RowSkip(p1, p2) == RowSkip(p2, p1)
    ensures Alternating(p1, p2) == Alternating(p2, p1)
    ensures RowSkip(p1, p2) ==> SameFinger(p1, p2)
    ensures !(SameFinger(p1, p2) && Alternating(p1, p2))
    ensures SameFinger(p1, p1) && !RowSkip(p1, p1) && !Alternating(p1, p1)
  {
  }

  /** On layouts' keys (three rows), a row skip is a same-finger pair between
      the top and the bottom row. */
  lemma RowSkipIsTopToBottom(p1: KeyPos, p2: KeyPos)
    requires p1.Valid() && p2.Valid()
    ensures RowSkip(p1, p2) <==> SameFinger(p1, p2) && {p1.row, p2.row} == {0, 2}
  {
    if SameFinger(p1, p2) && RowDistance(p1, p2) > 1 {
      assert p1.row == 0 || p1.row == 2;
    }
  }

  datatype BigramCounts = BigramCounts(counted: real, sameFinger: real, rowSkips: real, alternating: real)

  const BIGRAM_ZERO := BigramCounts(0.0, 0.0, 0.0, 0.0)

  /** The body of the 2-gram loop: a pair whose two characters the layout
      places adds its count to the counted total and to each kind it is of. */
  function AddBigram(acc: BigramCounts, count: real, pos1: Option<KeyPos>, pos2: Option<KeyPos>): BigramCounts
  {
    if pos1.Some? && pos2.Some? then
      var p1 := pos1.value;
      var p2 := pos2.value;
      var same := p1.IsLeftHand() == p2.IsLeftHand() && p1.Finger() == p2.Finger();
      acc.(counted := acc.counted + count,
           sameFinger := if same then acc.sameFinger + count else acc.sameFinger,
           rowSkips := if same && RowDistance(p1, p2) > 1 then acc.rowSkips + count else acc.rowSkips,
           alternating := if p1.IsLeftHand() != p2.IsLeftHand() then acc.alternating + count else acc.alternating)
    else acc
  }

  datatype BigramField = Counted | SameFingers | RowSkips | Alternations

  function BigramGet(b: BigramCounts, field: BigramField): real
  {
    match field
    case Counted => b.counted
    case SameFingers => b.sameFinger
    case RowSkips => b.rowSkips
    case Alternations => b.alternating
  }

  function BigramContribution(count: real, pos1: Option<KeyPos>, pos2: Option<KeyPos>, field: BigramField): real
  {
    BigramGet(AddBigram(BIGRAM_ZERO, count, pos1, pos2), field)
  }

  /** What one entry of the 2-gram map adds to one counter. */
  function BigramTerm(freq: map<string, nat>, charMap: CharMap, field: BigramField): string -> real
  {
    gram => BigramContribution(CountOf(freq, gram), PosOf(charMap, gram, 0), PosOf(charMap, gram, 1), field)
  }

  ghost predicate BigramTotals(b: BigramCounts, keys: set<string>, freq: map<string, nat>, charMap: CharMap)
  {
    forall field :: BigramGet(b, field) == Total(keys, BigramTerm(freq, charMap, field))
  }

  lemma AddBigramLinear(acc: BigramCounts, count: real, pos1: Option<KeyPos>, pos2: Option<KeyPos>, field: BigramField)
    ensures BigramGet(AddBigram(acc, count, pos1, pos2), field)
            == BigramGet(acc, field) + BigramContribution(count, pos1, pos2, field)
  {
  }

  lemma BigramTotalsInsert(b: BigramCounts, keys: set<string>, freq: map<string, nat>, charMap: CharMap, gram: string)
    requires gram !in keys && BigramTotals(b, keys, freq, charMap)
    ensures BigramTotals(AddBigram(b, CountOf(freq, gram), PosOf(charMap, gram, 0), PosOf(charMap, gram, 1)),
                         keys + {gram}, freq, charMap)
  {
    forall field: BigramField
      ensures BigramGet(AddBigram(b, CountOf(freq, gram), PosOf(charMap, gram, 0), PosOf(charMap, gram, 1)), field)
              == Total(keys + {gram}, BigramTerm(freq, charMap, field))
    {
      TotalInsert(keys, BigramTerm(freq, charMap, field), gram);
      AddBigramLinear(b, CountOf(freq, gram), PosOf(charMap, gram, 0), PosOf(charMap, gram, 1), field);
    }
  }

  /** The 2-gram loop of `compute_scores`. */
  method CountBigrams(freq: map<string, nat>, charMap: CharMap) returns (b: BigramCounts)
    ensures BigramTotals(b, freq.Keys, freq, charMap)
  {
    b := BIGRAM_ZERO;
    var visited: set<string> := {};
    var remaining := freq.Keys;
    while remaining != {}
      invariant visited + remaining == freq.Keys && visited !! remaining
      invariant BigramTotals(b, visited, freq, charMap)
      decreases |remaining|
    {
      var gram :| gram in remaining;
      BigramTotalsInsert(b, visited, freq, charMap, gram);
      b := AddBigram(b, freq[gram] as real, PosOf(charMap, gram, 0), PosOf(charMap, gram, 1));
      visited := visited + {gram};
      remaining := remaining - {gram};
    }
  }

  /** Row skips are among the same-finger pairs, and same-finger and
      alternating pairs are disjoint parts of the counted ones. */
  ghost predicate BigramSane(b: BigramCounts)
  {
    0.0 <= b.rowSkips <= b.sameFinger && b.alternating >= 0.0
    && b.sameFinger + b.alternating <= b.counted
  }

  lemma BigramContributionFacts(count: real, pos1: Option<KeyPos>, pos2: Option<KeyPos>)
    requires count >= 0.0
    ensures 0.0 <= BigramContribution(count, pos1, pos2, RowSkips) <= BigramContribution(count, pos1, pos2, SameFingers)
    ensures BigramContribution(count, pos1, pos2, Alternations) >= 0.0
    ensures BigramContribution(count, pos1, pos2, SameFingers) + BigramContribution(count, pos1, pos2, Alternations)
            <= BigramContribution(count, pos1, pos2, Counted)
  {
  }

  lemma BigramTotalsSane(b: BigramCounts, keys: set<string>, freq: map<string, nat>, charMap: CharMap)
    requires BigramTotals(b, keys, freq, charMap)
    ensures BigramSane(b)
  {
    var sf := BigramTerm(freq, charMap, SameFingers);
    var alt := BigramTerm(freq, charMap, Alternations);
    var both := (gram: string) => sf(gram) + alt(gram);
    forall gram | gram in keys
      ensures 0.0 <= BigramTerm(freq, charMap, RowSkips)(gram) <= sf(gram) && alt(gram) >= 0.0
      ensures both(gram) <= BigramTerm(freq, charMap, Counted)(gram)
    {
      BigramContributionFacts(CountOf(freq, gram), PosOf(charMap, gram, 0), PosOf(charMap, gram, 1));
    }
    assert BigramGet(b, Counted) == b.counted && BigramGet(b, SameFingers) == b.sameFinger;
    assert BigramGet(b, RowSkips) == b.rowSkips && BigramGet(b, Alternations) == b.alternating;
    TotalNonNegative(keys, BigramTerm(freq, charMap, RowSkips));
    TotalNonNegative(keys, alt);
    TotalMono(keys, BigramTerm(freq, charMap, RowSkips), sf);
    TotalLinear(keys, sf, alt, both);
    TotalMono(keys, both, BigramTerm(freq, charMap, Counted));
  }

  // ---------------------------------------------------------------------------
  // 3-grams
  // ---------------------------------------------------------------------------

  /** `finger_b as i32 - finger_a as i32`: positive toward the index finger. */
  function Direction(a: KeyPos, b: KeyPos): int
  {
    b.Finger() as int - a.Finger() as int
  }

  /** Three keys of one hand on three different fingers. */
  predicate OneHandThreeFingers(p1: KeyPos, p2: KeyPos, p3: KeyPos)
  {
    p1.IsLeftHand() == p2.IsLeftHand() && p2.IsLeftHand() == p3.IsLeftHand()
    && p1.Finger() != p2.Finger() && p2.Finger() != p3.Finger() && p1.Finger() != p3.Finger()
  }

  /** A one-hand trigram that moves the same way twice. */
  predicate IsRoll(p1: KeyPos, p2: KeyPos, p3: KeyPos)
  {
    OneHandThreeFingers(p1, p2, p3)
    && ((Direction(p1, p2) > 0 && Direction(p2, p3) > 0) || (Direction(p1, p2) < 0 && Direction(p2, p3) < 0))
  }

  /** A one-hand trigram that turns back. */
  predicate IsRedirect(p1: KeyPos, p2: KeyPos, p3: KeyPos)
  {
    OneHandThreeFingers(p1, p2, p3)
    && ((Direction(p1, p2) > 0 && Direction(p2, p3) < 0) || (Direction(p1, p2) < 0 && Direction(p2, p3) > 0))
  }

  /** A roll from the little finger toward the index finger. */
  predicate IsInroll(p1: KeyPos, p2: KeyPos, p3: KeyPos)
  {
    IsRoll(p1, p2, p3) && Direction(p1, p2) > 0
  }

  /** A roll over neighbouring fingers. */
  predicate IsArpeggio(p1: KeyPos, p2: KeyPos, p3: KeyPos)
  {
    IsRoll(p1, p2, p3) && (Direction(p1, p2) == 1 || Direction(p1, p2) == -1)
    && (Direction(p2, p3) == 1 || Direction(p2, p3) == -1)
  }

  /** A one-hand trigram on three fingers is a roll or a redirect, never both;
      played backwards it is of the same kind, and an in-roll backwards is an
      out-roll. With four fingers an arpeggio runs over three neighbours. */
  lemma TrigramKinds(p1: KeyPos, p2: KeyPos, p3: KeyPos)
    ensures OneHandThreeFingers(p1, p2, p3) ==> (IsRoll(p1, p2, p3) <==> !IsRedirect(p1, p2, p3))
    ensures !OneHandThreeFingers(p1, p2, p3) ==> !IsRoll(p1, p2, p3) && !IsRedirect(p1, p2, p3)
    ensures IsRoll(p1, p2, p3) == IsRoll(p3, p2, p1)
    ensures IsRedirect(p1, p2, p3) == IsRedirect(p3, p2, p1)
    ensures IsRoll(p1, p2, p3) ==> (IsInroll(p1, p2, p3) <==> !IsInroll(p3, p2, p1))
    ensures IsArpeggio(p1, p2, p3) ==>
              (p2.Finger() == 1 || p2.Finger() == 2) && p1.Finger() + p3.Finger() == 2 * p2.Finger()
  {
  }

  datatype TrigramCounts = TrigramCounts(counted: real, roll: real, redirect: real, inroll: real, arpeggio: real)

  const TRIGRAM_ZERO := TrigramCounts(0.0, 0.0, 0.0, 0.0, 0.0)

  /** The body of the 3-gram loop, branch for branch. */
  function AddTrigram(acc: TrigramCounts, count: real, pos1: Option<KeyPos>, pos2: Option<KeyPos>, pos3: Option<KeyPos>): TrigramCounts
  {
    if pos1.Some? && pos2.Some? && pos3.Some? then
      var p1 := pos1.value;
      var p2 := pos2.value;
      var p3 := pos3.value;
      var acc := acc.(counted := acc.counted + count);
      if p1.IsLeftHand() == p2.IsLeftHand() && p2.IsLeftHand() == p3.IsLeftHand() then
        var dir1 := p2.Finger() as int - p1.Finger() as int;
        var dir2 := p3.Finger() as int - p2.Finger() as int;
        if p1.Finger() != p2.Finger() && p2.Finger() != p3.Finger() && p1.Finger() != p3.Finger() then
          if (dir1 > 0 && dir2 > 0) || (dir1 < 0 && dir2 < 0) then
            acc.(roll := acc.roll + count,
                 inroll := if dir1 > 0 then acc.inroll + count else acc.inroll,
                 arpeggio := if Abs(dir1) == 1 && Abs(dir2) == 1 then acc.arpeggio + count else acc.arpeggio)
          else if (dir1 > 0 && dir2 < 0) || (dir1 < 0 && dir2 > 0) then
            acc.(redirect := acc.redirect + count)
          else acc
        else acc
      else acc
    else acc
  }

  function Abs(x: int): nat
  {
    if x < 0 then -x else x
  }

  datatype TrigramField = TriCounted | Rolls | Redirects | Inrolls | Arpeggios

  function TrigramGet(t: TrigramCounts, field: TrigramField): real
  {
    match field
    case TriCounted => t.counted
    case Rolls => t.roll
    case Redirects => t.redirect
    case Inrolls => t.inroll
    case Arpeggios => t.arpeggio
  }

  function TrigramContribution(count: real, pos1: Option<KeyPos>, pos2: Option<KeyPos>, pos3: Option<KeyPos>, field: TrigramField): real
  {
    TrigramGet(AddTrigram(TRIGRAM_ZERO, count, pos1, pos2, pos3), field)
  }

  /** The loop body adds the count to exactly the kinds the trigram is of. */
  lemma TrigramContributionKinds(count: real, p1: KeyPos, p2: KeyPos, p3: KeyPos)
    ensures TrigramContribution(count, Some(p1), Some(p2), Some(p3), TriCounted) == count
    ensures TrigramContribution(count, Some(p1), Some(p2), Some(p3), Rolls) == if IsRoll(p1, p2, p3) then count else 0.0
    ensures TrigramContribution(count, Some(p1), Some(p2), Some(p3), Redirects) == if IsRedirect(p1, p2, p3) then count else 0.0
    ensures TrigramContribution(count, Some(p1), Some(p2), Some(p3), Inrolls) == if IsInroll(p1, p2, p3) then count else 0.0
    ensures TrigramContribution(count, Some(p1), Some(p2), Some(p3), Arpeggios) == if IsArpeggio(p1, p2, p3) then count else 0.0
  {
  }

  /** What one entry of the 3-gram map adds to one counter. */
  function TrigramTerm(freq: map<string, nat>, charMap: CharMap, field: TrigramField): string -> real
  {
    gram => TrigramContribution(CountOf(freq, gram), PosOf(charMap, gram, 0), PosOf(charMap, gram, 1), PosOf(charMap, gram, 2), field)
  }

  ghost predicate TrigramTotals(t: TrigramCounts, keys: set<string>, freq: map<string, nat>, charMap: CharMap)
  {
    forall field :: TrigramGet(t, field) == Total(keys, TrigramTerm(freq, charMap, field))
  }

  lemma AddTrigramLinear(acc: TrigramCounts, count: real, pos1: Option<KeyPos>, pos2: Option<KeyPos>, pos3: Option<KeyPos>, field: TrigramField)
    ensures TrigramGet(AddTrigram(acc, count, pos1, pos2, pos3), field)
            == TrigramGet(acc, field) + TrigramContribution(count, pos1, pos2, pos3, field)
  {
  }

  lemma TrigramTotalsInsert(t: TrigramCounts, keys: set<string>, freq: map<string, nat>, charMap: CharMap, gram: string)
    requires gram !in keys && TrigramTotals(t, keys, freq, charMap)
    ensures TrigramTotals(AddTrigram(t, CountOf(freq, gram), PosOf(charMap, gram, 0), PosOf(charMap, gram, 1), PosOf(charMap, gram, 2)),
                          keys + {gram}, freq, charMap)
  {
    forall field: TrigramField
      ensures TrigramGet(AddTrigram(t, CountOf(freq, gram), PosOf(charMap, gram, 0), PosOf(charMap, gram, 1), PosOf(charMap, gram, 2)), field)
              == Total(keys + {gram}, TrigramTerm(freq, charMap, field))
    {
      TotalInsert(keys, TrigramTerm(freq, charMap, field), gram);
      AddTrigramLinear(t, CountOf(freq, gram), PosOf(charMap, gram, 0), PosOf(charMap, gram, 1), PosOf(charMap, gram, 2), field);
    }
  }

  /** The 3-gram loop of `calc_trigram_scores`. */
  method CountTrigrams(freq: map<string, nat>, charMap: CharMap) returns (t: TrigramCounts)
    ensures TrigramTotals(t, freq.Keys, freq, charMap)
  {
    t := TRIGRAM_ZERO;
    var visited: set<string> := {};
    var remaining := freq.Keys;
    while remaining != {}
      invariant visited + remaining == freq.Keys && visited !! remaining
      invariant TrigramTotals(t, visited, freq, charMap)
      decreases |remaining|
    {
      var gram :| gram in remaining;
      TrigramTotalsInsert(t, visited, freq, charMap, gram);
      t := AddTrigram(t, freq[gram] as real, PosOf(charMap, gram, 0), PosOf(charMap, gram, 1), PosOf(charMap, gram, 2));
      visited := visited + {gram};
      remaining := remaining - {gram};
    }
  }

  /** In-rolls and arpeggios are rolls, and rolls and redirects are disjoint
      parts of the counted trigrams. */
  ghost predicate TrigramSane(t: TrigramCounts)
  {
    0.0 <= t.inroll <= t.roll && 0.0 <= t.arpeggio <= t.roll && t.redirect >= 0.0
    && t.roll + t.redirect <= t.counted
  }

  lemma TrigramContributionFacts(count: real, pos1: Option<KeyPos>, pos2: Option<KeyPos>, pos3: Option<KeyPos>)
    requires count >= 0.0
    ensures 0.0 <= TrigramContribution(count, pos1, pos2, pos3, Inrolls) <= TrigramContribution(count, pos1, pos2, pos3, Rolls)
    ensures 0.0 <= TrigramContribution(count, pos1, pos2, pos3, Arpeggios) <= TrigramContribution(count, pos1, pos2, pos3, Rolls)
    ensures TrigramContribution(count, pos1, pos2, pos3, Redirects) >= 0.0
    ensures TrigramContribution(count, pos1, pos2, pos3, Rolls) + TrigramContribution(count, pos1, pos2, pos3, Redirects)
            <= TrigramContribution(count, pos1, pos2, pos3, TriCounted)
  {
  }

  lemma TrigramTotalsSane(t: TrigramCounts, keys: set<string>, freq: map<string, nat>, charMap: CharMap)
    requires TrigramTotals(t, keys, freq, charMap)
    ensures TrigramSane(t)
  {
    var roll := TrigramTerm(freq, charMap, Rolls);
    var redirect := TrigramTerm(freq, charMap, Redirects);
    var both := (gram: string) => roll(gram) + redirect(gram);
    forall gram | gram in keys
      ensures 0.0 <= TrigramTerm(freq, charMap, Inrolls)(gram) <= roll(gram)
      ensures 0.0 <= TrigramTerm(freq, charMap, Arpeggios)(gram) <= roll(gram)
      ensures redirect(gram) >= 0.0 && both(gram) <= TrigramTerm(freq, charMap, TriCounted)(gram)
    {
      TrigramContributionFacts(CountOf(freq, gram), PosOf(charMap, gram, 0), PosOf(charMap, gram, 1), PosOf(charMap, gram, 2));
    }
    assert TrigramGet(t, TriCounted) == t.counted && TrigramGet(t, Rolls) == t.roll;
    assert TrigramGet(t, Redirects) == t.redirect && TrigramGet(t, Inrolls) == t.inroll;
    assert TrigramGet(t, Arpeggios) == t.arpeggio;
    TotalNonNegative(keys, TrigramTerm(freq, charMap, Inrolls));
    TotalNonNegative(keys, TrigramTerm(freq, charMap, Arpeggios));
    TotalNonNegative(keys, redirect);
    TotalMono(keys, TrigramTerm(freq, charMap, Inrolls), roll);
    TotalMono(keys, TrigramTerm(freq, charMap, Arpeggios), roll);
    TotalLinear(keys, roll, redirect, both);
    TotalMono(keys, both, TrigramTerm(freq, charMap, TriCounted));
  }
}
