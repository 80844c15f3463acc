/** The script that turns a corpus text into the four n-gram files: keep the kana,
    count every window of 1 to 4 characters, and write each size's counts as
    `count \t ngram \t n` lines, most frequent first. The corpus loader reads
    these files back. */
module CreateNgram {
  import opened Common
  import Corpus

  /** The script's `is_hiragana`: the hiragana block U+3040..U+309F, or one of
      。、ー. (Wider than the loader's test: it also admits ゕ, ゖ, the
      combining and spacing sound marks and ゝ, ゞ, ゟ.) */
  predicate IsKana(c: char)
  {
    ('\U{3040}' <= c <= '\U{309F}') || c == '。' || c == '、' || c == 'ー'
  }

  /** `filter_hiragana`: the characters of `text` that are kana, in order. */
  function FilterHiragana(text: string): (r: string)
    ensures forall c :: c in r <==> c in text && IsKana(c)
    ensures forall c :: multiset(r)[c] == if IsKana(c) then multiset(text)[c] else 0
    ensures |r| <= |text|
  {
    if |text| == 0 then ""
    else
      var rest := FilterHiragana(text[1..]);
      assert text == [text[0]] + text[1..];
      if IsKana(text[0]) then [text[0]] + rest else rest
  }

  /** `text.replace('\n', '')`. */
  function RemoveNewlines(text: string): (r: string)
    ensures '\n' !in r
    ensures forall c :: c != '\n' ==> multiset(r)[c] == multiset(text)[c]
  {
    if |text| == 0 then ""
    else
      var rest := RemoveNewlines(text[1..]);
      assert text == [text[0]] + text[1..];
      if text[0] == '\n' then rest else [text[0]] + rest
  }

  /** A newline is not kana, so removing newlines first changes nothing. */
  lemma {:induction false} FilterIgnoresNewlines(text: string)
    ensures FilterHiragana(RemoveNewlines(text)) == FilterHiragana(text)
    decreases |text|
  {
    if |text| > 0 {
      FilterIgnoresNewlines(text[1..]);
    }
  }

  /** The text the script counts: newlines removed, then only the kana kept. */
  function KanaOf(text: string): (r: string)
    ensures forall c :: c in r ==> IsKana(c)
    ensures r == FilterHiragana(text)
  {
    FilterIgnoresNewlines(text);
    FilterHiragana(RemoveNewlines(text))
  }

  // ---------------------------------------------------------------------------
  // Counting with Python's insertion-ordered Counter
  // ---------------------------------------------------------------------------

  /** A `Counter`: the counts, and the keys in order of first insertion (the
      order `counter.items()` lists them in). */
  datatype Counter = Counter(order: seq<string>, counts: map<string, nat>)
  {
    predicate Valid()
    {
      NoRepeats(order)
      && (forall k :: k in counts ==> k in order)
      && (forall i :: 0 <= i < |order| ==> order[i] in counts)
    }
  }

  /** `counter[k] += 1`: a new key goes to the end of the insertion order,
      a known one keeps its place. */
  function Increment(c: Counter, k: string): (r: Counter)
    requires c.Valid()
    ensures r.Valid()
    ensures r.order == if k in c.counts then c.order else c.order + [k]
  {
    if k in c.counts then Counter(c.order, c.counts[k := c.counts[k] + 1])
    else
      assert forall i :: 0 <= i < |c.order| ==> c.order[i] != k;
      Counter(c.order + [k], c.counts[k := 1])
  }

  /** The distinct keys of `ws` in order of first appearance. */
  function FirstOccurrences(ws: seq<string>): seq<string>
  {
    if |ws| == 0 then []
    else
      var r := FirstOccurrences(ws[..|ws| - 1]);
      if ws[|ws| - 1] in r then r else r + [ws[|ws| - 1]]
  }

  /** Every key of `ws` is listed, once, and nothing else. */
  lemma {:induction false} FirstOccurrencesFacts(ws: seq<string>)
    ensures NoRepeats(FirstOccurrences(ws)) && forall k :: k in FirstOccurrences(ws) <==> k in ws
  {
    if |ws| > 0 {
      var init := ws[..|ws| - 1];
      FirstOccurrencesFacts(init);
      assert ws == init + [ws[|ws| - 1]];
    }
  }

  /** Whatever occurrence in `ws` of a later key of `r` is taken, every
      earlier key of `r` occurs in `ws` before it. */
  ghost predicate FirstOrdered(r: seq<string>, ws: seq<string>)
  {
    forall i, j, p {:trigger r[i], r[j], ws[p]} :: 0 <= i < j < |r| && 0 <= p < |ws| && ws[p] == r[j] ==> r[i] in ws[..p]
  }

  /** In `FirstOccurrences(ws)` a key comes before another exactly when its
      first occurrence in `ws` does: whatever occurrence of the later key is
      taken, the earlier key occurs before it. */
  lemma {:induction false} FirstOccurrencesOrder(ws: seq<string>)
    ensures FirstOrdered(FirstOccurrences(ws), ws)
  {
    if |ws| > 0 {
      var init := ws[..|ws| - 1];
      FirstOccurrencesOrder(init);
      var r := FirstOccurrences(ws);
      forall i, j, p {:trigger r[i], r[j], ws[p]} | 0 <= i < j < |r| && 0 <= p < |ws| && ws[p] == r[j] ensures r[i] in ws[..p] {
        FirstOrderedAt(ws, i, j, p);
      }
    }
  }

  /** The step of `FirstOccurrencesOrder` for one pair of keys and one
      occurrence of the later key. */
  lemma FirstOrderedAt(ws: seq<string>, i: nat, j: nat, p: nat)
    requires |ws| > 0 && FirstOrdered(FirstOccurrences(ws[..|ws| - 1]), ws[..|ws| - 1])
    requires i < j < |FirstOccurrences(ws)| && p < |ws| && ws[p] == FirstOccurrences(ws)[j]
    ensures FirstOccurrences(ws)[i] in ws[..p]
  {
    var init := ws[..|ws| - 1];
    var last := ws[|ws| - 1];
    var r0 := FirstOccurrences(init);
    var r := FirstOccurrences(ws);
    FirstOccurrencesFacts(init);
    assert r[i] == r0[i] && r[i] in init;
    if j == |r0| {
      assert r[j] == last && last !in init;
      assert p == |ws| - 1;
      assert ws[..p] == init;
    } else {
      assert r[j] == r0[j];
      if p < |ws| - 1 {
        assert init[p] == ws[p] == r0[j];
        assert r0[i] in init[..p] && init[..p] == ws[..p];
      } else {
        assert r0[j] in init;
        var q :| 0 <= q < |init| && init[q] == r0[j];
        assert r0[i] in init[..q];
        var m :| 0 <= m < q && init[..q][m] == r[i];
        assert ws[..p][m] == r[i];
      }
    }
  }

  /** `c` counts the occurrences of each key in `ws`, and nothing else, and
      lists the keys in the order they were first inserted. */
  ghost predicate CountsSeq(c: Counter, ws: seq<string>)
  {
    c.Valid() && Corpus.CountsOf(c.counts, ws) && SumValues(c.counts) == |ws| && c.order == FirstOccurrences(ws)
  }

  lemma CountsSeqStep(c: Counter, ws: seq<string>, k: string)
    requires CountsSeq(c, ws)
    ensures CountsSeq(Increment(c, k), ws + [k])
  {
    TallyStep(c.counts, ws, k);
    IncrementCounts(c, k);
    IncrementOrder(c, ws, k);
  }

  /** One more key counted: the counts of `ws + [k]`, adding up to one more. */
  lemma TallyStep(m: map<string, nat>, ws: seq<string>, k: string)
    requires Corpus.CountsOf(m, ws) && SumValues(m) == |ws|
    ensures Corpus.CountsOf(m[k := if k in m then m[k] + 1 else 1], ws + [k])
    ensures SumValues(m[k := if k in m then m[k] + 1 else 1]) == |ws + [k]|
  {
    Corpus.CountsOfStep(m, ws, k);
    SumValuesIncrement(m, k);
  }

  /** A new key joins the first-insertion order at its end. */
  lemma IncrementOrder(c: Counter, ws: seq<string>, k: string)
    requires c.Valid() && c.order == FirstOccurrences(ws)
    ensures Increment(c, k).order == FirstOccurrences(ws + [k])
  {
    assert (ws + [k])[..|ws|] == ws;
    assert k in c.counts <==> k in c.order;
  }

  /** `counter[k] += 1` adds one to the count of `k`, starting from zero. */
  lemma IncrementCounts(c: Counter, k: string)
    requires c.Valid()
    ensures Increment(c, k).counts == c.counts[k := if k in c.counts then c.counts[k] + 1 else 1]
  {
  }

  /** `c` counts the first `p` windows of size `n` of `text`. */
  ghost predicate CountsPrefix(c: Counter, text: string, n: nat, p: nat)
    requires n >= 1
  {
    p <= |Windows(text, n)| && CountsSeq(c, Windows(text, n)[..p])
  }

  lemma CountsPrefixStep(c: Counter, text: string, n: nat, p: nat)
    requires n >= 1 && CountsPrefix(c, text, n, p) && p < |Windows(text, n)|
    ensures CountsPrefix(Increment(c, text[p..p + n]), text, n, p + 1)
  {
    var w := Windows(text, n);
    assert w[p] == text[p..p + n];
    assert w[..p + 1] == w[..p] + [w[p]];
    CountsSeqStep(c, w[..p], w[p]);
  }

  lemma CountsPrefixEmpty(text: string, n: nat)
    requires n >= 1
    ensures CountsPrefix(Counter([], map[]), text, n, 0)
  {
    assert Windows(text, n)[..0] == [];
  }

  /** The number of windows of size `n` that start before position `i`. */
  function Started(text: string, n: nat, i: nat): nat
    requires n >= 1
  {
    if i < |Windows(text, n)| then i else |Windows(text, n)|
  }

  /** The state of the four counters inside the nested loop of `create_ngrams`:
      windows starting before `i` are counted, and so is the window of size n'
      starting at `i` for every n' below `n`. */
  ghost predicate LoopState(counters: seq<Counter>, text: string, i: nat, n: nat)
  {
    |counters| == 4 && 1 <= n <= 5
    && forall m :: 1 <= m <= 4 ==> SlotState(counters, text, i, n, m)
  }

  /** The part of `LoopState` about the counter of size `m`. */
  ghost predicate SlotState(counters: seq<Counter>, text: string, i: nat, n: nat, m: nat)
    requires |counters| == 4 && 1 <= m <= 4
  {
    CountsPrefix(counters[m - 1], text, m, if m < n then Started(text, m, i + 1) else Started(text, m, i))
  }

  /** The counter after the window of size `n` at `i`, if that window fits. */
  function CountWindow(counters: seq<Counter>, text: string, i: nat, n: nat): (r: seq<Counter>)
    requires |counters| == 4 && 1 <= n <= 4 && counters[n - 1].Valid()
    ensures |r| == 4
  {
    if i + n <= |text| then counters[n - 1 := Increment(counters[n - 1], text[i..i + n])] else counters
  }

  lemma LoopStateStep(counters: seq<Counter>, text: string, i: nat, n: nat)
    requires LoopState(counters, text, i, n) && n <= 4
    ensures counters[n - 1].Valid()
    ensures LoopState(CountWindow(counters, text, i, n), text, i, n + 1)
  {
    assert SlotState(counters, text, i, n, n);
    SlotAdvance(counters, text, i, n);
    var next := CountWindow(counters, text, i, n);
    var n1 := n + 1;
    forall m | 1 <= m <= 4 ensures SlotState(next, text, i, n1, m) {
      assert SlotState(counters, text, i, n, m);
      SlotStep(counters, text, i, n, m);
    }
  }

  /** The step for size `n` moves the counter of size `n` and keeps the others. */
  lemma SlotStep(counters: seq<Counter>, text: string, i: nat, n: nat, m: nat)
    requires |counters| == 4 && 1 <= n <= 4 && 1 <= m <= 4
    requires SlotState(counters, text, i, n, n) && SlotState(counters, text, i, n, m)
    ensures counters[n - 1].Valid()
    ensures SlotState(CountWindow(counters, text, i, n), text, i, n + 1, m)
  {
    SlotAdvance(counters, text, i, n);
    if m != n {
      SlotKeep(counters, CountWindow(counters, text, i, n), text, i, n, m);
    }
  }

  /** Counting the window of size `n` at `i` moves that counter past it. */
  lemma SlotAdvance(counters: seq<Counter>, text: string, i: nat, n: nat)
    requires |counters| == 4 && 1 <= n <= 4 && SlotState(counters, text, i, n, n)
    ensures counters[n - 1].Valid()
    ensures SlotState(CountWindow(counters, text, i, n), text, i, n + 1, n)
  {
    var w := Windows(text, n);
    var next := CountWindow(counters, text, i, n);
    assert CountsPrefix(counters[n - 1], text, n, Started(text, n, i));
    if i + n <= |text| {
      assert Started(text, n, i) == i && Started(text, n, i + 1) == i + 1;
      CountsPrefixStep(counters[n - 1], text, n, i);
      assert next[n - 1] == Increment(counters[n - 1], text[i..i + n]);
    } else {
      assert Started(text, n, i) == |w| == Started(text, n, i + 1);
      assert next == counters;
    }
    assert CountsPrefix(next[n - 1], text, n, Started(text, n, i + 1));
  }

  /** The other counters are untouched and stay where they were. */
  lemma SlotKeep(counters: seq<Counter>, next: seq<Counter>, text: string, i: nat, n: nat, m: nat)
    requires |counters| == 4 && |next| == 4 && 1 <= m <= 4 && m != n
    requires next[m - 1] == counters[m - 1] && SlotState(counters, text, i, n, m)
    ensures SlotState(next, text, i, n + 1, m)
  {
  }

  lemma LoopStateNext(counters: seq<Counter>, text: string, i: nat)
    requires LoopState(counters, text, i, 5)
    ensures LoopState(counters, text, i + 1, 1)
  {
    var i1 := i + 1;
    forall m | 1 <= m <= 4 ensures SlotState(counters, text, i1, 1, m) {
      assert SlotState(counters, text, i, 5, m);
    }
  }

  lemma LoopStateDone(counters: seq<Counter>, text: string)
    requires LoopState(counters, text, |text|, 1)
    ensures CountsAll(counters, text)
  {
    forall m | 1 <= m <= 4 ensures CountsPrefix(counters[m - 1], text, m, |Windows(text, m)|) {
      assert SlotState(counters, text, |text|, 1, m);
    }
  }

  lemma LoopStateStart(text: string)
    ensures LoopState([Counter([], map[]), Counter([], map[]), Counter([], map[]), Counter([], map[])], text, 0, 1)
  {
    var empty := [Counter([], map[]), Counter([], map[]), Counter([], map[]), Counter([], map[])];
    forall m | 1 <= m <= 4 ensures SlotState(empty, text, 0, 1, m) {
      CountsPrefixEmpty(text, m);
    }
  }

  /** Each of the four counters holds the counts of all windows of its size. */
  ghost predicate CountsAll(counters: seq<Counter>, text: string)
  {
    |counters| == 4 && forall n :: 1 <= n <= 4 ==> CountsPrefix(counters[n - 1], text, n, |Windows(text, n)|)
  }

  /** The counting loop of `create_ngrams`: for every position and every size
      1..4 whose window fits, one more occurrence of that window. */
  method CountNgrams(text: string) returns (counters: seq<Counter>)
    ensures |counters| == 4
    ensures forall k :: 0 <= k < 4 ==> counters[k].Valid()
    ensures CountsAll(counters, text)
  {
    counters := [Counter([], map[]), Counter([], map[]), Counter([], map[]), Counter([], map[])];
    LoopStateStart(text);
    for i := 0 to |text|
      invariant LoopState(counters, text, i, 1)
    {
      for n := 1 to 5
        invariant LoopState(counters, text, i, n)
      {
        LoopStateStep(counters, text, i, n);
        ghost var next := CountWindow(counters, text, i, n);
        if i + n <= |text| {
          counters := counters[n - 1 := Increment(counters[n - 1], text[i..i + n])];
        }
        assert counters == next;
      }
      LoopStateNext(counters, text, i);
    }
    LoopStateDone(counters, text);
    assert forall k :: 0 <= k < 4 ==> CountsPrefix(counters[k], text, k + 1, |Windows(text, k + 1)|);
  }

  // ---------------------------------------------------------------------------
  // Writing the n-gram files
  // ---------------------------------------------------------------------------

  /** `counter.items()`: each key with its count, in insertion order. */
  function Items(c: Counter): (r: seq<(string, nat)>)
    requires c.Valid()
    ensures |r| == |c.order|
    ensures forall i :: 0 <= i < |r| ==> r[i].0 == c.order[i] && r[i].1 == c.counts[c.order[i]]
  {
    seq(|c.order|, i requires 0 <= i < |c.order| && c.Valid() => (c.order[i], c.counts[c.order[i]]))
  }

  function Count(p: (string, nat)): real { p.1 as real }

  /** The list comprehension that keeps the items counted at least `minCount` times. */
  function AtLeast(items: seq<(string, nat)>, minCount: int): seq<(string, nat)>
  {
    if |items| == 0 then []
    else (if items[0].1 >= minCount then [items[0]] else []) + AtLeast(items[1..], minCount)
  }

  lemma {:induction false} AtLeastFacts(items: seq<(string, nat)>, minCount: int)
    ensures forall x :: x in AtLeast(items, minCount) <==> x in items && x.1 >= minCount
    decreases |items|
  {
    if |items| > 0 {
      AtLeastFacts(items[1..], minCount);
      assert items == [items[0]] + items[1..];
    }
  }

  lemma {:induction false} AtLeastSorted(items: seq<(string, nat)>, minCount: int)
    requires SortedByKeyDesc(items, Count)
    ensures SortedByKeyDesc(AtLeast(items, minCount), Count)
    decreases |items|
  {
    if |items| > 0 {
      var tail := items[1..];
      assert SortedByKeyDesc(tail, Count) by {
        forall i, j | 0 <= i < j < |tail| ensures Count(tail[i]) >= Count(tail[j]) {
          assert tail[i] == items[i + 1] && tail[j] == items[j + 1];
        }
      }
      AtLeastSorted(tail, minCount);
      AtLeastFacts(tail, minCount);
      var rest := AtLeast(tail, minCount);
      var r := AtLeast(items, minCount);
      if items[0].1 >= minCount {
        assert r == [items[0]] + rest;
        forall j | 0 <= j < |rest| ensures Count(items[0]) >= Count(rest[j]) {
          assert rest[j] in tail;
          var k :| 0 <= k < |tail| && tail[k] == rest[j];
          assert tail[k] == items[k + 1];
        }
        forall i, j | 0 <= i < j < |r| ensures Count(r[i]) >= Count(r[j]) {
          assert r[j] == rest[j - 1];
          if i > 0 {
            assert r[i] == rest[i - 1];
          }
        }
      } else {
        assert r == rest;
      }
    }
  }

  /** The line `f"{count}\t{ngram}\t{n}"` (the file adds a newline after it). */
  function FormatLine(count: nat, gram: string, n: nat): string
  {
    NatToString(count) + "\t" + gram + "\t" + NatToString(n)
  }

  /** The entries of one n-gram file: sorted by non-increasing count (stably, so
      ties keep insertion order), then those counted at least `minCount` times. */
  function FileEntries(c: Counter, minCount: int): seq<(string, nat)>
    requires c.Valid()
  {
    AtLeast(SortByKeyDesc(Items(c), Count), minCount)
  }

  function FileLines(c: Counter, n: nat, minCount: int): seq<string>
    requires c.Valid()
  {
    var entries := FileEntries(c, minCount);
    seq(|entries|, i requires 0 <= i < |entries| => FormatLine(entries[i].1, entries[i].0, n))
  }

  /** `create_ngrams` without the file handling: the four files' lines in order
      1-gram .. 4-gram. */
  method CreateNgrams(text: string, minCount: int) returns (files: seq<seq<string>>, ghost counters: seq<Counter>)
    ensures |files| == 4 && |counters| == 4
    ensures CountsAll(counters, KanaOf(text))
    ensures forall k :: 0 <= k < 4 ==> counters[k].order == FirstOccurrences(Windows(KanaOf(text), k + 1))
    ensures forall k :: 0 <= k < 4 ==> counters[k].Valid() && files[k] == FileLines(counters[k], k + 1, minCount)
  {
    var kana := KanaOf(text);
    var counted := CountNgrams(kana);
    counters := counted;
    CountsAllOrder(counted, kana);
    files := [];
    for n := 1 to 5
      invariant |files| == n - 1
      invariant forall k :: 0 <= k < n - 1 ==> files[k] == FileLines(counted[k], k + 1, minCount)
    {
      var lines := FileLines(counted[n - 1], n, minCount);
      ghost var before := files;
      files := files + [lines];
      forall k | 0 <= k < n ensures files[k] == FileLines(counted[k], k + 1, minCount) {
        if k < n - 1 {
          assert files[k] == before[k];
        }
      }
    }
  }

  /** A counter of all windows lists them in order of first occurrence, the
      order `counter.items()` and the stable sort keep for equal counts. */
  lemma CountsAllOrder(counters: seq<Counter>, text: string)
    requires CountsAll(counters, text)
    ensures forall k :: 0 <= k < 4 ==> counters[k].order == FirstOccurrences(Windows(text, k + 1))
  {
    forall k | 0 <= k < 4 ensures counters[k].order == FirstOccurrences(Windows(text, k + 1)) {
      var w := Windows(text, k + 1);
      assert CountsPrefix(counters[k], text, k + 1, |w|);
      assert w[..|w|] == w;
    }
  }

  /** What the counts of one size add up to, and what its keys look like: the
      counts sum to L - n + 1 (L the filtered length) and every key has n kana. */
  lemma CountsOfText(counters: seq<Counter>, text: string, n: nat)
    requires CountsAll(counters, KanaOf(text)) && 1 <= n <= 4
    ensures SumValues(counters[n - 1].counts) == if |FilterHiragana(text)| >= n then |FilterHiragana(text)| - n + 1 else 0
    ensures forall k :: k in counters[n - 1].counts ==> |k| == n && forall j :: 0 <= j < n ==> IsKana(k[j])
  {
    var f := KanaOf(text);
    var w := Windows(f, n);
    assert w[..|w|] == w;
    assert CountsSeq(counters[n - 1], w) by {
      assert CountsPrefix(counters[n - 1], f, n, |w|);
    }
    CountsOfKanaText(counters[n - 1], f, n);
  }

  lemma CountsOfKanaText(c: Counter, f: string, n: nat)
    requires n >= 1 && CountsSeq(c, Windows(f, n)) && forall ch :: ch in f ==> IsKana(ch)
    ensures forall k :: k in c.counts ==> |k| == n && forall j :: 0 <= j < n ==> IsKana(k[j])
  {
    forall k | k in c.counts ensures |k| == n && forall j :: 0 <= j < n ==> IsKana(k[j]) {
      WindowOfKana(f, n, k);
    }
  }

  lemma WindowOfKana(f: string, n: nat, k: string)
    requires n >= 1 && k in Windows(f, n) && forall c :: c in f ==> IsKana(c)
    ensures |k| == n && forall j :: 0 <= j < n ==> IsKana(k[j])
  {
    var w := Windows(f, n);
    var i :| 0 <= i < |w| && w[i] == k;
    forall j | 0 <= j < n ensures IsKana(k[j]) {
      assert k[j] == f[i + j];
      assert f[i + j] in f;
    }
  }

  /** The 1-gram counts are the character counts of the kana text: a kana
      character `ch` of `text` is counted as often as it occurs, and nothing else is counted. */
  lemma UnigramCounts(counters: seq<Counter>, text: string, ch: char)
    requires CountsAll(counters, KanaOf(text))
    ensures [ch] in counters[0].counts <==> ch in text && IsKana(ch)
    ensures [ch] in counters[0].counts ==> counters[0].counts[[ch]] == multiset(text)[ch]
  {
    var f := KanaOf(text);
    var w := Windows(f, 1);
    assert CountsPrefix(counters[0], f, 1, |w|);
    assert w[..|w|] == w;
    Corpus.WindowsOfOne(f);
  }

  /** The files are written most frequent first, and the entries are exactly
      the keys counted at least `minCount` times, each with its own count. */
  lemma FileEntriesFacts(c: Counter, minCount: int)
    requires c.Valid()
    ensures SortedByKeyDesc(FileEntries(c, minCount), Count)
    ensures forall x :: x in FileEntries(c, minCount) <==> x.0 in c.counts && x.1 == c.counts[x.0] && x.1 >= minCount
  {
    var items := Items(c);
    var sorted := SortByKeyDesc(items, Count);
    SortByKeyDescFacts(items, Count);
    PermutationMembers(sorted, items);
    ItemsOfCounter(c);
    AtLeastFacts(sorted, minCount);
    AtLeastSorted(sorted, minCount);
  }

  /** The items are exactly the keys paired with their counts. */
  lemma ItemsOfCounter(c: Counter)
    requires c.Valid()
    ensures forall x :: x in Items(c) <==> x.0 in c.counts && x.1 == c.counts[x.0]
  {
    var items := Items(c);
    forall x ensures x in items <==> x.0 in c.counts && x.1 == c.counts[x.0] {
      if x.0 in c.counts && x.1 == c.counts[x.0] {
        var i :| 0 <= i < |c.order| && c.order[i] == x.0;
        assert items[i] == x;
      }
    }
  }

  /** Each written line is read back by the corpus loader as exactly the written
      n-gram and count, provided the count fits in a 64-bit `usize` and the
      n-gram has the file's size and no 〓 (kana never do). */
  lemma FileLineRoundTrip(count: nat, gram: string, n: nat)
    requires count <= USIZE_MAX && |gram| == n
    requires forall j :: 0 <= j < |gram| ==> IsKana(gram[j])
    ensures Corpus.ParseNgramLine(FormatLine(count, gram, n)) == Some((count, gram))
    ensures Corpus.GramEntry(FormatLine(count, gram, n), n) == Some((gram, count))
  {
    forall j | 0 <= j < |gram| ensures gram[j] != '\t' && gram[j] != '〓' {
      assert IsKana(gram[j]);
    }
    JoinThree(NatToString(count), gram, NatToString(n), "\t");
    var digits := NatToString(n);
    forall k | 0 <= k < |digits| ensures digits[k] != '\t' {
      assert IsDigit(digits[k]);
    }
    Corpus.ParseNgramLineRoundTrip(count, gram, [NatToString(n)]);
  }
}
