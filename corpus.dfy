/** N-gram statistics of a kana corpus: the counts the evaluator weighs a layout by
    and the frequency-ordered kana list the optimiser places. The statistics come
    either from raw text or from the tab-separated n-gram files the corpus scripts
    write. An n-gram is keyed by its string of n characters (the source keys the
    1-gram map by `char` and the others by tuples of chars). */
module Corpus {
  import opened Common

  datatype CorpusStats = CorpusStats(
    charFreq: map<string, nat>,
    bigramFreq: map<string, nat>,
    trigramFreq: map<string, nat>,
    fourgramFreq: map<string, nat>,
    hiraganaByFreq: seq<char>)
  {
    /** Every key of the n-gram map has exactly n characters. */
    predicate WellFormed()
    {
      KeysOfLength(charFreq, 1) && KeysOfLength(bigramFreq, 2)
      && KeysOfLength(trigramFreq, 3) && KeysOfLength(fourgramFreq, 4)
    }
  }

  predicate KeysOfLength(m: map<string, nat>, n: nat)
  {
    forall k :: k in m ==> |k| == n
  }

  /** `CorpusStats::new`: nothing counted. */
  function EmptyStats(): CorpusStats
  {
    CorpusStats(map[], map[], map[], map[], [])
  }

  /** `total_chars`, `total_bigrams`, `total_trigrams`: the sums of the counts. */
  ghost function TotalChars(s: CorpusStats): nat { SumValues(s.charFreq) }
  ghost function TotalBigrams(s: CorpusStats): nat { SumValues(s.bigramFreq) }
  ghost function TotalTrigrams(s: CorpusStats): nat { SumValues(s.trigramFreq) }

  // ---------------------------------------------------------------------------
  // Kana classification
  // ---------------------------------------------------------------------------

  /** The source's `is_hiragana`: the range ぁ..ん, the long-vowel mark ー and ゔ. */
  predicate IsHiragana(c: char)
  {
    ('ぁ' <= c <= 'ん') || c == 'ー' || c == 'ゔ'
  }

  /** A 1-gram that enters the frequency-ordered kana list: hiragana other than
      the two punctuation marks. */
  predicate KanaCandidate(c: char)
  {
    IsHiragana(c) && c != '、' && c != '。'
  }

  /** The two punctuation marks lie below ぁ, so the extra test in the kana filter
      never removes anything `is_hiragana` accepts; the shift-layer symbols that
      `add_symbol_chars` inserts are not hiragana either. */
  lemma HiraganaExcludesPunctuation()
    ensures !IsHiragana('、') && !IsHiragana('。')
    ensures !IsHiragana('；') && !IsHiragana('・')
    ensures forall c :: IsHiragana(c) <==> KanaCandidate(c)
  {
  }

  // ---------------------------------------------------------------------------
  // The n-gram line format `count \t characters \t n`
  // ---------------------------------------------------------------------------

  /** `parse_ngram_line`: split on tabs; with at least two fields and a first
      field that parses as a `usize`, the count and the second field. */
  function ParseNgramLine(line: string): (r: Option<(nat, string)>)
    ensures r.Some? <==> |Split(line, '\t')| >= 2 && ParseUsize(Split(line, '\t')[0]).Some?
    ensures r.Some? ==> r.value.0 <= USIZE_MAX && '\t' !in r.value.1
  {
    var parts := Split(line, '\t');
    if |parts| >= 2 then
      match ParseUsize(parts[0])
      case Some(count) => Some((count, parts[1]))
      case None => None
    else None
  }

  /** A line made of a rendered count, a tab-free n-gram and any further tab-free
      fields is parsed back to that count and n-gram. */
  lemma ParseNgramLineRoundTrip(count: nat, gram: string, rest: seq<string>)
    requires count <= USIZE_MAX
    requires '\t' !in gram
    requires forall k :: 0 <= k < |rest| ==> '\t' !in rest[k]
    ensures ParseNgramLine(Join([NatToString(count), gram] + rest, "\t")) == Some((count, gram))
  {
    var parts := [NatToString(count), gram] + rest;
    var digits := NatToString(count);
    assert '\t' !in digits by {
      forall k | 0 <= k < |digits| ensures digits[k] != '\t' {
        assert IsDigit(digits[k]);
      }
    }
    forall k | 0 <= k < |parts| ensures '\t' !in parts[k] {
      if k >= 2 {
        assert parts[k] == rest[k - 2];
      }
    }
    SplitJoin(parts, '\t');
    ParseUsizeRoundTrip(count);
  }

  /** The line of the source's parser test. */
  lemma ParseNgramLineExample()
    ensures ParseNgramLine("1234\tあい\t2") == Some((1234, "あい"))
  {
    ExampleLineIsRendered();
    ParseNgramLineRoundTrip(1234, "あい", ["2"]);
  }

  lemma ExampleLineIsRendered()
    ensures Join([NatToString(1234), "あい"] + ["2"], "\t") == "1234\tあい\t2"
  {
    ExampleNumbers();
    ExampleJoin();
  }

  lemma ExampleNumbers()
    ensures NatToString(1234) == "1234" && NatToString(2) == "2"
  {
    assert NatToString(1) == "1";
    assert NatToString(12) == "12";
    assert NatToString(123) == "123";
  }

  lemma ExampleJoin()
    ensures Join(["1234", "あい", "2"], "\t") == "1234\tあい\t2"
  {
    assert Join(["2"], "\t") == "2";
    assert Join(["あい", "2"], "\t") == "あい" + "\t" + "2";
    assert ["1234", "あい", "2"][1..] == ["あい", "2"];
  }

  /** A line of an n-gram file that `from_ngram_files` keeps for size n: it
      parses, its n-gram has exactly n characters, and none of them is 〓 (the
      corpus's stand-in for a line break). */
  function GramEntry(line: string, n: nat): (r: Option<(string, nat)>)
    ensures r.Some? ==> |r.value.0| == n && '〓' !in r.value.0
  {
    match ParseNgramLine(line)
    case None => None
    case Some(parsed) =>
      if |parsed.1| == n && '〓' !in parsed.1 then Some((parsed.1, parsed.0)) else None
  }

  // ---------------------------------------------------------------------------
  // Counting
  // ---------------------------------------------------------------------------

  /** The `*map.entry(x).or_insert(0) += 1` loop over a sequence of items: the map
      holds, for every item that occurs, how often it occurs. */
  method CountOccurrences<T(!new)>(s: seq<T>) returns (m: map<T, nat>)
    ensures forall x :: x in m <==> x in s
    ensures forall x :: x in m ==> m[x] == multiset(s)[x]
    ensures SumValues(m) == |s|
  {
    m := map[];
    for i := 0 to |s|
      invariant CountsOf(m, s[..i])
      invariant SumValues(m) == i
    {
      var x := s[i];
      TakeNext(s, i);
      SumValuesIncrement(m, x);
      CountsOfStep(m, s[..i], x);
      m := m[x := if x in m then m[x] + 1 else 1];
    }
    assert s[..|s|] == s;
  }

  /** `m` counts the occurrences of every element of `s`, and holds no other key. */
  ghost predicate CountsOf<T(!new)>(m: map<T, nat>, s: seq<T>)
  {
    (forall x :: x in m <==> x in s) && forall x :: x in m ==> m[x] == multiset(s)[x]
  }

  lemma CountsOfStep<T(!new)>(m: map<T, nat>, s: seq<T>, x: T)
    requires CountsOf(m, s)
    ensures CountsOf(m[x := if x in m then m[x] + 1 else 1], s + [x])
  {
    assert multiset(s + [x]) == multiset(s) + multiset{x};
  }

  function Firsts<A, B>(s: seq<(A, B)>): (r: seq<A>)
    ensures |r| == |s| && forall i :: 0 <= i < |s| ==> r[i] == s[i].0
  {
    seq(|s|, i requires 0 <= i < |s| => s[i].0)
  }

  function Count<A>(p: (A, nat)): real { p.1 as real }

  /** The kana keys of a count map with their counts, in the map's (unspecified)
      iteration order: each kana key exactly once. */
  method CollectKanaCounts(freq: map<string, nat>) returns (pairs: seq<(char, nat)>)
    requires KeysOfLength(freq, 1)
    ensures forall i :: 0 <= i < |pairs| ==>
              [pairs[i].0] in freq && pairs[i].1 == freq[[pairs[i].0]] && KanaCandidate(pairs[i].0)
    ensures forall c :: [c] in freq && KanaCandidate(c) ==> c in Firsts(pairs)
    ensures NoRepeats(Firsts(pairs))
  {
    pairs := [];
    var pending := set k | k in freq && KanaCandidate(k[0]);
    while pending != {}
      invariant forall k :: k in pending ==> k in freq && KanaCandidate(k[0])
      invariant forall i :: 0 <= i < |pairs| ==>
                  [pairs[i].0] in freq && pairs[i].1 == freq[[pairs[i].0]] && KanaCandidate(pairs[i].0)
      invariant forall i :: 0 <= i < |pairs| ==> [pairs[i].0] !in pending
      invariant forall k :: k in freq && KanaCandidate(k[0]) && k !in pending ==> k[0] in Firsts(pairs)
      invariant NoRepeats(Firsts(pairs))
      decreases |pending|
    {
      var k :| k in pending;
      assert k == [k[0]];
      ghost var before := pairs;
      pairs := pairs + [(k[0], freq[k])];
      pending := pending - {k};
      assert Firsts(pairs) == Firsts(before) + [k[0]];
      forall i | 0 <= i < |before| ensures before[i].0 != k[0] {
        assert [before[i].0] != k;
      }
    }
    forall c | [c] in freq && KanaCandidate(c) ensures c in Firsts(pairs) {
      assert [c][0] == c;
    }
  }

  /** `kana` lists distinct characters that all have counts in `freq`, by
      non-increasing count. */
  predicate RanksByCount(kana: seq<char>, freq: map<string, nat>)
  {
    NoRepeats(kana) && (forall i :: 0 <= i < |kana| ==> [kana[i]] in freq) &&
    forall i, j :: 0 <= i < j < |kana| ==> freq[[kana[i]]] >= freq[[kana[j]]]
  }

  /** Adding counts for other keys keeps a ranking. */
  lemma RanksByCountExtend(kana: seq<char>, freq: map<string, nat>, freq': map<string, nat>)
    requires RanksByCount(kana, freq)
    requires forall k :: k in freq ==> k in freq' && freq'[k] == freq[k]
    ensures RanksByCount(kana, freq')
  {
  }

  /** Building `hiragana_by_freq` from a count map: the kana keys with their
      counts, sorted stably by non-increasing count. Every kana key appears
      exactly once, ordered by count. */
  method HiraganaByFreq(freq: map<string, nat>) returns (r: seq<char>)
    requires KeysOfLength(freq, 1)
    ensures forall c :: c in r <==> [c] in freq && KanaCandidate(c)
    ensures RanksByCount(r, freq)
  {
    var pairs := CollectKanaCounts(freq);
    var sorted := SortByKeyDesc(pairs, Count);
    SortByKeyDescFacts(pairs, Count);
    SortedKeepsPairs(pairs, sorted, freq);
    r := Firsts(sorted);
    PermutedFirsts(pairs, sorted);
    RankedByCount(sorted, freq);
  }

  /** A permutation of pairs has the same first components. */
  lemma PermutedFirsts<A, B>(pairs: seq<(A, B)>, sorted: seq<(A, B)>)
    requires multiset(sorted) == multiset(pairs)
    ensures forall c :: c in Firsts(pairs) ==> c in Firsts(sorted)
  {
    forall c | c in Firsts(pairs) ensures c in Firsts(sorted) {
      var i :| 0 <= i < |pairs| && Firsts(pairs)[i] == c;
      assert pairs[i] in multiset(sorted);
      var j :| 0 <= j < |sorted| && sorted[j] == pairs[i];
      assert Firsts(sorted)[j] == c;
    }
  }

  /** Pairs sorted by non-increasing count, each holding its key's count, list
      their keys by non-increasing count. */
  lemma RankedByCount(sorted: seq<(char, nat)>, freq: map<string, nat>)
    requires forall i :: 0 <= i < |sorted| ==> [sorted[i].0] in freq && sorted[i].1 == freq[[sorted[i].0]]
    requires SortedByKeyDesc(sorted, Count)
    ensures forall i, j :: 0 <= i < j < |sorted| ==> freq[[Firsts(sorted)[i]]] >= freq[[Firsts(sorted)[j]]]
  {
    forall i, j | 0 <= i < j < |sorted| ensures freq[[Firsts(sorted)[i]]] >= freq[[Firsts(sorted)[j]]] {
      assert Count(sorted[i]) >= Count(sorted[j]);
    }
  }

  /** A permutation of pairs that each hold a key's own count, with no key twice,
      again has no key twice. */
  lemma SortedKeepsPairs(pairs: seq<(char, nat)>, sorted: seq<(char, nat)>, freq: map<string, nat>)
    requires multiset(sorted) == multiset(pairs)
    requires forall i :: 0 <= i < |pairs| ==>
               [pairs[i].0] in freq && pairs[i].1 == freq[[pairs[i].0]] && KanaCandidate(pairs[i].0)
    requires NoRepeats(Firsts(pairs))
    ensures forall i :: 0 <= i < |sorted| ==>
              [sorted[i].0] in freq && sorted[i].1 == freq[[sorted[i].0]] && KanaCandidate(sorted[i].0)
    ensures NoRepeats(Firsts(sorted))
  {
    forall i | 0 <= i < |sorted|
      ensures [sorted[i].0] in freq && sorted[i].1 == freq[[sorted[i].0]] && KanaCandidate(sorted[i].0)
    {
      assert sorted[i] in multiset(pairs);
    }
    assert NoRepeats(pairs) by {
      forall i, j | 0 <= i < j < |pairs| ensures pairs[i] != pairs[j] {
        assert Firsts(pairs)[i] != Firsts(pairs)[j];
      }
    }
    NoRepeatsDistinct(pairs);
    assert Distinct(sorted);
    DistinctNoRepeats(sorted);
    forall i, j | 0 <= i < j < |sorted| ensures Firsts(sorted)[i] != Firsts(sorted)[j] {
      assert sorted[i] != sorted[j];
    }
  }

  /** Symbols of the shift layer that have fixed cells: the evaluator needs a count
      for them, and the layout never places them. */
  const SYMBOL_CHARS: seq<string> := ["；", "・"]

  /** `add_symbol_chars`: each shift-layer symbol absent from the 1-gram counts is
      inserted with count 1; existing counts and everything else stay. */
  method AddSymbolChars(stats: CorpusStats) returns (r: CorpusStats)
    ensures "；" in r.charFreq && "・" in r.charFreq
    ensures forall k :: k in stats.charFreq ==> k in r.charFreq && r.charFreq[k] == stats.charFreq[k]
    ensures forall k :: k in r.charFreq && k !in stats.charFreq ==> (k == "；" || k == "・") && r.charFreq[k] == 1
    ensures r == stats.(charFreq := r.charFreq)
    ensures TotalChars(r) == TotalChars(stats)
              + (if "；" in stats.charFreq then 0 else 1) + (if "・" in stats.charFreq then 0 else 1)
  {
    var freq := stats.charFreq;
    for i := 0 to |SYMBOL_CHARS|
      invariant freq == WithSymbols(stats.charFreq, SYMBOL_CHARS[..i])
    {
      var c := SYMBOL_CHARS[i];
      assert SYMBOL_CHARS[..i + 1][..i] == SYMBOL_CHARS[..i];
      if c !in freq {
        freq := freq[c := 1];
      }
      assert freq == InsertAbsent(WithSymbols(stats.charFreq, SYMBOL_CHARS[..i]), c);
    }
    assert SYMBOL_CHARS[..|SYMBOL_CHARS|] == SYMBOL_CHARS;
    WithSymbolCharsFacts(stats.charFreq);
    r := stats.(charFreq := freq);
  }

  /** Insert `c` with count 1 unless it is already counted. */
  function InsertAbsent(m: map<string, nat>, c: string): (r: map<string, nat>)
    ensures c in r && forall k :: k in m ==> k in r && r[k] == m[k]
    ensures forall k :: k in r && k !in m ==> k == c && r[k] == 1
  {
    if c in m then m else m[c := 1]
  }

  lemma InsertAbsentSum(m: map<string, nat>, c: string)
    ensures SumValues(InsertAbsent(m, c)) == SumValues(m) + (if c in m then 0 else 1)
  {
    if c !in m {
      SumValuesIncrement(m, c);
    }
  }

  /** The counts after inserting each of `cs` in turn when absent. */
  function WithSymbols(m: map<string, nat>, cs: seq<string>): map<string, nat>
  {
    if |cs| == 0 then m else InsertAbsent(WithSymbols(m, cs[..|cs| - 1]), cs[|cs| - 1])
  }

  lemma WithSymbolCharsUnfold(m: map<string, nat>)
    ensures WithSymbols(m, SYMBOL_CHARS) == InsertAbsent(InsertAbsent(m, "；"), "・")
  {
    assert SYMBOL_CHARS[..1] == ["；"];
    assert ["；"][..0] == [];
    assert WithSymbols(m, []) == m;
    assert WithSymbols(m, ["；"]) == InsertAbsent(m, "；");
    assert SYMBOL_CHARS[|SYMBOL_CHARS| - 1] == "・";
    assert WithSymbols(m, SYMBOL_CHARS) == InsertAbsent(WithSymbols(m, SYMBOL_CHARS[..1]), "・");
  }

  lemma WithSymbolCharsFacts(m: map<string, nat>)
    ensures "；" in WithSymbols(m, SYMBOL_CHARS) && "・" in WithSymbols(m, SYMBOL_CHARS)
    ensures forall k :: k in m ==> k in WithSymbols(m, SYMBOL_CHARS) && WithSymbols(m, SYMBOL_CHARS)[k] == m[k]
    ensures forall k :: k in WithSymbols(m, SYMBOL_CHARS) && k !in m ==>
              (k == "；" || k == "・") && WithSymbols(m, SYMBOL_CHARS)[k] == 1
    ensures SumValues(WithSymbols(m, SYMBOL_CHARS))
              == SumValues(m) + (if "；" in m then 0 else 1) + (if "・" in m then 0 else 1)
  {
    WithSymbolCharsUnfold(m);
    var m1 := InsertAbsent(m, "；");
    assert "；" != "・" by { assert "；"[0] != "・"[0]; }
    assert "・" in m1 <==> "・" in m;
    InsertAbsentSum(m, "；");
    InsertAbsentSum(m1, "・");
  }

  /** `m` counts the windows of size `n` of `text`: exactly the windows are keys,
      each with its number of occurrences, so the counts add up to L - n + 1. */
  ghost predicate CountsWindows(m: map<string, nat>, text: string, n: nat)
    requires n >= 1
  {
    (forall k :: k in m <==> k in Windows(text, n))
    && (forall k :: k in m ==> m[k] == multiset(Windows(text, n))[k])
    && SumValues(m) == if |text| >= n then |text| - n + 1 else 0
  }

  /** The counting part of `from_text`: every window of 1 to 4 characters, and
      the kana ordered by count. */
  method CountText(text: string) returns (stats: CorpusStats)
    ensures stats.WellFormed()
    ensures CountsWindows(stats.charFreq, text, 1) && CountsWindows(stats.bigramFreq, text, 2)
    ensures CountsWindows(stats.trigramFreq, text, 3) && CountsWindows(stats.fourgramFreq, text, 4)
    ensures forall c :: c in stats.hiraganaByFreq <==> c in text && KanaCandidate(c)
    ensures RanksByCount(stats.hiraganaByFreq, stats.charFreq)
  {
    var chars := CountWindowsOf(text, 1);
    var bigrams := CountWindowsOf(text, 2);
    var trigrams := CountWindowsOf(text, 3);
    var fourgrams := CountWindowsOf(text, 4);
    var kana := HiraganaByFreq(chars);
    forall c ensures c in kana <==> c in text && KanaCandidate(c) {
      WindowsOfOne(text);
    }
    stats := CorpusStats(chars, bigrams, trigrams, fourgrams, kana);
  }

  /** One `for window in chars.windows(n)` counting loop. */
  method CountWindowsOf(text: string, n: nat) returns (m: map<string, nat>)
    requires n >= 1
    ensures CountsWindows(m, text, n) && KeysOfLength(m, n)
  {
    m := CountOccurrences(Windows(text, n));
  }

  /** `from_text`: the counts of every character and of every window of 2, 3 and
      4 characters, the kana ordered by count, then the shift-layer symbols. */
  method FromText(text: string) returns (stats: CorpusStats)
    ensures stats.WellFormed()
    ensures forall k :: k in stats.charFreq <==> k in Windows(text, 1) || k == "；" || k == "・"
    ensures forall c :: c in text ==> [c] in stats.charFreq && stats.charFreq[[c]] == multiset(text)[c]
    ensures CountsWindows(stats.bigramFreq, text, 2) && CountsWindows(stats.trigramFreq, text, 3)
    ensures CountsWindows(stats.fourgramFreq, text, 4)
    ensures TotalBigrams(stats) == (if |text| >= 2 then |text| - 1 else 0)
    ensures TotalTrigrams(stats) == (if |text| >= 3 then |text| - 2 else 0)
    ensures TotalChars(stats) == |text| + (if '；' in text then 0 else 1) + (if '・' in text then 0 else 1)
    ensures forall c :: c in stats.hiraganaByFreq <==> c in text && KanaCandidate(c)
    ensures RanksByCount(stats.hiraganaByFreq, stats.charFreq)
  {
    var counted := CountText(text);
    WindowsOfOne(text);
    assert "；" in counted.charFreq <==> '；' in text by {
      assert "；" == ['；'];
    }
    assert "・" in counted.charFreq <==> '・' in text by {
      assert "・" == ['・'];
    }
    stats := AddSymbolChars(counted);
    RanksByCountExtend(stats.hiraganaByFreq, counted.charFreq, stats.charFreq);
    forall c | c in text ensures [c] in stats.charFreq && stats.charFreq[[c]] == multiset(text)[c] {
      assert [c] in Windows(text, 1);
      assert [c][0] == c;
    }
  }

  /** The windows of one character are the characters themselves. */
  lemma WindowsOfOne(text: string)
    ensures forall k :: k in Windows(text, 1) ==> |k| == 1 && multiset(Windows(text, 1))[k] == multiset(text)[k[0]]
    ensures forall c :: [c] in Windows(text, 1) <==> c in text
    ensures |Windows(text, 1)| == |text|
  {
    var w := Windows(text, 1);
    forall k | k in w ensures |k| == 1 && multiset(w)[k] == multiset(text)[k[0]] {
      assert k == [k[0]];
      WindowsOfOneCount(text, k[0]);
    }
    forall c ensures [c] in w <==> c in text {
      if c in text {
        var i :| 0 <= i < |text| && text[i] == c;
        assert w[i] == [c];
      }
      if [c] in w {
        var i :| 0 <= i < |w| && w[i] == [c];
        assert text[i] == c;
      }
    }
  }

  lemma {:induction false} WindowsOfOneCount(text: string, c: char)
    ensures multiset(Windows(text, 1))[[c]] == multiset(text)[c]
    decreases |text|
  {
    if |text| > 0 {
      var init := text[..|text| - 1];
      var last := text[|text| - 1];
      WindowsOfOneCount(init, c);
      var w := Windows(text, 1);
      var wi := Windows(init, 1);
      forall i | 0 <= i < |wi| ensures w[i] == wi[i] {
        assert text[i..i + 1] == init[i..i + 1];
      }
      assert |w| == |wi| + 1;
      assert w[|wi|] == text[|wi|..|wi| + 1] == [last];
      assert w == wi + [[last]];
      assert text == init + [last];
      assert [last] == [c] <==> last == c;
    }
  }

  /** Counting a text whose characters are all different: every window is a key
      of its own, so there are L - n + 1 keys of size n. */
  lemma WindowKeysOfDistinctText(text: string, n: nat)
    requires n >= 1 && NoRepeats(text)
    ensures |set k | k in Windows(text, n)| == |Windows(text, n)|
  {
    var w := Windows(text, n);
    forall i, j | 0 <= i < j < |w| ensures w[i] != w[j] {
      assert w[i][0] == text[i] && w[j][0] == text[j];
    }
    NoRepeatsCard(w);
  }

  /** The text of the source's counting test: four bigram keys and three
      trigram keys. */
  lemma FromTextExample()
    ensures |set k | k in Windows("あいうえお", 2)| == 4
    ensures |set k | k in Windows("あいうえお", 3)| == 3
  {
    WindowKeysOfDistinctText("あいうえお", 2);
    WindowKeysOfDistinctText("あいうえお", 3);
  }

  // ---------------------------------------------------------------------------
  // Reading n-gram files
  // ---------------------------------------------------------------------------

  /** The map the line loop of one n-gram file builds: each kept line inserts its
      count under its n-gram, so a later line overwrites an earlier one. */
  function GramMap(lines: seq<string>, n: nat): map<string, nat>
  {
    if |lines| == 0 then map[]
    else
      var m := GramMap(lines[..|lines| - 1], n);
      match GramEntry(lines[|lines| - 1], n)
      case None => m
      case Some(e) => m[e.0 := e.1]
  }

  /** Every key has n characters and no 〓. */
  lemma {:induction false} GramMapShape(lines: seq<string>, n: nat)
    ensures forall k :: k in GramMap(lines, n) ==> |k| == n && '〓' !in k
    decreases |lines|
  {
    if |lines| > 0 {
      GramMapShape(lines[..|lines| - 1], n);
    }
  }

  /** The line that supplies `k`, among the first `len` lines. */
  ghost predicate Supplies(lines: seq<string>, n: nat, j: int, k: string)
  {
    0 <= j < |lines| && GramEntry(lines[j], n).Some? && GramEntry(lines[j], n).value.0 == k
  }

  /** The last line adds its key, if it has one, and keeps the others. */
  lemma GramMapLastLine(lines: seq<string>, n: nat, k: string)
    requires |lines| > 0
    ensures k in GramMap(lines, n) <==> k in GramMap(lines[..|lines| - 1], n) || Supplies(lines, n, |lines| - 1, k)
  {
  }

  /** A key is present exactly when some line supplies it. */
  lemma {:induction false} GramMapKeys(lines: seq<string>, n: nat, k: string)
    ensures k in GramMap(lines, n) <==> exists j :: Supplies(lines, n, j, k)
    decreases |lines|
  {
    if |lines| > 0 {
      var init := lines[..|lines| - 1];
      var last := |lines| - 1;
      GramMapKeys(init, n, k);
      GramMapLastLine(lines, n, k);
      if Supplies(lines, n, last, k) {
      } else if k in GramMap(init, n) {
        var j :| Supplies(init, n, j, k);
        assert lines[j] == init[j];
        assert Supplies(lines, n, j, k);
      } else {
        forall j | 0 <= j < |lines| ensures !Supplies(lines, n, j, k) {
          if j < last {
            assert lines[j] == init[j];
            assert !Supplies(init, n, j, k);
          }
        }
      }
    }
  }

  /** Line `j` supplies `k` and no later line does. */
  ghost predicate LastSupplier(lines: seq<string>, n: nat, j: int, k: string)
  {
    Supplies(lines, n, j, k) && forall j' :: j < j' < |lines| ==> !Supplies(lines, n, j', k)
  }

  /** A present key carries the count of the last line that supplies it. */
  lemma {:induction false} GramMapLast(lines: seq<string>, n: nat, k: string)
    requires k in GramMap(lines, n)
    ensures exists j :: LastSupplier(lines, n, j, k) && GramEntry(lines[j], n).value.1 == GramMap(lines, n)[k]
    decreases |lines|
  {
    var init := lines[..|lines| - 1];
    var last := |lines| - 1;
    if Supplies(lines, n, last, k) {
      assert LastSupplier(lines, n, last, k);
    } else {
      assert k in GramMap(init, n) && GramMap(init, n)[k] == GramMap(lines, n)[k];
      GramMapLast(init, n, k);
      var j :| LastSupplier(init, n, j, k) && GramEntry(init[j], n).value.1 == GramMap(init, n)[k];
      assert lines[j] == init[j];
      forall j' | j < j' < |lines| ensures !Supplies(lines, n, j', k) {
        if j' < last {
          assert lines[j'] == init[j'];
          assert !Supplies(init, n, j', k);
        }
      }
      assert LastSupplier(lines, n, j, k);
    }
  }

  /** The kana entry a line of the 1-gram file contributes, if any. */
  function KanaOf(line: string): (r: seq<(char, nat)>)
    ensures |r| <= 1
    ensures |r| == 1 ==> KanaCandidate(r[0].0) && GramEntry(line, 1) == Some(([r[0].0], r[0].1))
  {
    match GramEntry(line, 1)
    case Some(e) =>
      assert e.0 == [e.0[0]];
      if KanaCandidate(e.0[0]) then [(e.0[0], e.1)] else []
    case None => []
  }

  /** The kana 1-grams in file order, each with the count of its line. */
  function KanaEntries(lines: seq<string>): (r: seq<(char, nat)>)
  {
    if |lines| == 0 then [] else KanaEntries(lines[..|lines| - 1]) + KanaOf(lines[|lines| - 1])
  }

  /** Every kana entry is a kana candidate and comes from a kept line of the
      1-gram file, with that line's count. */
  lemma {:induction false} KanaEntriesFromLines(lines: seq<string>)
    ensures forall i :: 0 <= i < |KanaEntries(lines)| ==> KanaCandidate(KanaEntries(lines)[i].0)
    ensures forall i :: 0 <= i < |KanaEntries(lines)| ==>
              exists j :: 0 <= j < |lines| && GramEntry(lines[j], 1) == Some(([KanaEntries(lines)[i].0], KanaEntries(lines)[i].1))
    decreases |lines|
  {
    if |lines| > 0 {
      var init := lines[..|lines| - 1];
      KanaEntriesFromLines(init);
      var r := KanaEntries(lines);
      var ri := KanaEntries(init);
      var tail := KanaOf(lines[|lines| - 1]);
      assert r == ri + tail;
      forall i | 0 <= i < |r|
        ensures KanaCandidate(r[i].0)
        ensures exists j :: 0 <= j < |lines| && GramEntry(lines[j], 1) == Some(([r[i].0], r[i].1))
      {
        if i < |ri| {
          assert r[i] == ri[i];
          var j :| 0 <= j < |init| && GramEntry(init[j], 1) == Some(([ri[i].0], ri[i].1));
          assert lines[j] == init[j];
          assert GramEntry(lines[j], 1) == Some(([r[i].0], r[i].1));
        } else {
          assert r[i] == tail[0];
          var j := |lines| - 1;
          assert GramEntry(lines[j], 1) == Some(([r[i].0], r[i].1));
        }
      }
    } else {
      assert KanaEntries(lines) == [];
    }
  }

  /** The loop over one file of n-grams of size `n` (n >= 2). */
  method LoadGrams(lines: seq<string>, n: nat) returns (m: map<string, nat>)
    ensures m == GramMap(lines, n)
  {
    m := map[];
    for i := 0 to |lines|
      invariant m == GramMap(lines[..i], n)
    {
      assert lines[..i + 1][..i] == lines[..i];
      match GramEntry(lines[i], n)
      case Some(e) => m := m[e.0 := e.1];
      case None =>
    }
    assert lines[..|lines|] == lines;
  }

  /** The loop over the 1-gram file, which also collects the kana with counts. */
  method LoadUnigrams(lines: seq<string>) returns (m: map<string, nat>, kana: seq<(char, nat)>)
    ensures m == GramMap(lines, 1) && kana == KanaEntries(lines)
  {
    m := map[];
    kana := [];
    for i := 0 to |lines|
      invariant m == GramMap(lines[..i], 1) && kana == KanaEntries(lines[..i])
    {
      assert lines[..i + 1][..i] == lines[..i];
      match GramEntry(lines[i], 1)
      case Some(e) =>
        m := m[e.0 := e.1];
        if KanaCandidate(e.0[0]) {
          kana := kana + [(e.0[0], e.1)];
        }
        assert kana == KanaEntries(lines[..i]) + KanaOf(lines[i]);
      case None =>
    }
    assert lines[..|lines|] == lines;
  }

  function LinesOf(file: Option<seq<string>>): seq<string>
  {
    if file.Some? then file.value else []
  }

  /** `from_ngram_files`, with each optional file given as its lines. Every kept
      n-gram has n characters and no 〓, and its count is that of its last line;
      ； and ・ are added to the 1-grams with count 1 when the file lacks them;
      the kana list is the kana 1-gram lines sorted stably by non-increasing count. */
  method FromNgramLines(gram1: Option<seq<string>>, gram2: Option<seq<string>>,
                        gram3: Option<seq<string>>, gram4: Option<seq<string>>)
    returns (stats: CorpusStats, ranked: seq<(char, nat)>)
    ensures stats.WellFormed()
    ensures forall k :: k in stats.charFreq ==> k in GramMap(LinesOf(gram1), 1) || k == "；" || k == "・"
    ensures forall k :: k in GramMap(LinesOf(gram1), 1) ==> k in stats.charFreq && stats.charFreq[k] == GramMap(LinesOf(gram1), 1)[k]
    ensures "；" in stats.charFreq && "・" in stats.charFreq
    ensures forall k :: k in stats.charFreq && k !in GramMap(LinesOf(gram1), 1) ==> stats.charFreq[k] == 1
    ensures stats.bigramFreq == GramMap(LinesOf(gram2), 2)
    ensures stats.trigramFreq == GramMap(LinesOf(gram3), 3)
    ensures stats.fourgramFreq == GramMap(LinesOf(gram4), 4)
    ensures forall k :: k in stats.bigramFreq ==> '〓' !in k
    ensures forall k :: k in stats.trigramFreq ==> '〓' !in k
    ensures forall k :: k in stats.fourgramFreq ==> '〓' !in k
    ensures multiset(ranked) == multiset(KanaEntries(LinesOf(gram1)))
    ensures SortedByKeyDesc(ranked, Count)
    ensures forall v :: WithKey(ranked, Count, v) == WithKey(KanaEntries(LinesOf(gram1)), Count, v)
    ensures stats.hiraganaByFreq == Firsts(ranked)
  {
    var freq1, kana := LoadUnigrams(LinesOf(gram1));
    ranked := SortByKeyDesc(kana, Count);
    SortByKeyDescFacts(kana, Count);
    var bigrams := LoadGrams(LinesOf(gram2), 2);
    var trigrams := LoadGrams(LinesOf(gram3), 3);
    var fourgrams := LoadGrams(LinesOf(gram4), 4);
    GramMapShape(LinesOf(gram1), 1);
    GramMapShape(LinesOf(gram2), 2);
    GramMapShape(LinesOf(gram3), 3);
    GramMapShape(LinesOf(gram4), 4);
    stats := CorpusStats(freq1, bigrams, trigrams, fourgrams, Firsts(ranked));
    stats := AddSymbolChars(stats);
  }
}
