/** The 1-gram/yoon merger: read the 1-gram file (dropping the lone small
    kana), read the yoon 2-gram file, tag the records with their size, sort
    them by non-increasing count (stably) and write `count \t gram \t n` lines. */
module MergeFrequencies {
  import opened Common
  import opened ScriptLines
  import Corpus

  /** A merged record: the count, the character or 2-gram, and its size tag. */
  datatype Record = Record(count: int, gram: string, n: nat)

  /** The 1-gram filter, Python's `char not in 'ょゅゃゎ'`: a substring test, so
      an empty field and any run of those four kana are dropped as well. */
  predicate KeepUnigram(gram: string)
  {
    !IsSubstring(gram, "ょゅゃゎ")
  }

  predicate AnyGram(gram: string)
  {
    true
  }

  /** What the substring test drops and keeps. */
  lemma KeepUnigramCases()
    ensures !KeepUnigram("ょ") && !KeepUnigram("ゎ") && !KeepUnigram("") && !KeepUnigram("ょゅ")
    ensures KeepUnigram("あ") && KeepUnigram("ゃょ")
  {
    var s := "ょゅゃゎ";
    assert s[0..1] == "ょ" && s[3..4] == "ゎ" && s[0..0] == "" && s[0..2] == "ょゅ";
    forall i, j | 0 <= i <= j <= |s| ensures s[i..j] != "あ" && s[i..j] != "ゃょ" {
      if j - i == 1 {
        assert s[i..j][0] == s[i];
      } else if j - i == 2 {
        assert s[i..j][0] == s[i] && s[i..j][1] == s[i + 1];
      }
    }
  }

  /** The records of one file, tagged with size `n`. */
  function Tagged(entries: seq<(int, string)>, n: nat): (r: seq<Record>)
    ensures |r| == |entries| && forall i :: 0 <= i < |r| ==> r[i] == Record(entries[i].0, entries[i].1, n)
  {
    seq(|entries|, i requires 0 <= i < |entries| => Record(entries[i].0, entries[i].1, n))
  }

  function RecordCount(r: Record): real { r.count as real }

  /** `all_chars = chars_1gram + chars_2gram` sorted with `key=lambda x: -x[0]`:
      Python's sort is stable, so this is the stable non-increasing sort. */
  function Merged(ones: seq<(int, string)>, twos: seq<(int, string)>): seq<Record>
  {
    SortByKeyDesc(Tagged(ones, 1) + Tagged(twos, 2), RecordCount)
  }

  /** `merge_frequencies` without the file handling; `None` when either file
      has a line whose count is not an integer. */
  method MergeFrequencies(lines1: seq<string>, lines2: seq<string>) returns (r: Option<seq<Record>>)
    ensures r.None? <==> Kept(ReadAll(lines1), KeepUnigram).None? || Kept(ReadAll(lines2), AnyGram).None?
    ensures r.Some? ==> r.value == Merged(Kept(ReadAll(lines1), KeepUnigram).value, Kept(ReadAll(lines2), AnyGram).value)
  {
    var ones := ReadEntries(lines1, KeepUnigram);
    if ones.None? {
      return None;
    }
    var twos := ReadEntries(lines2, AnyGram);
    if twos.None? {
      return None;
    }
    r := Some(Merged(ones.value, twos.value));
  }

  /** The merged list holds exactly the tagged records of both files, one for
      one, by non-increasing count; records with equal counts keep their input
      order, so 1-grams come before 2-grams and each file keeps its line order. */
  lemma MergedFacts(ones: seq<(int, string)>, twos: seq<(int, string)>)
    ensures |Merged(ones, twos)| == |ones| + |twos|
    ensures multiset(Merged(ones, twos)) == multiset(Tagged(ones, 1) + Tagged(twos, 2))
    ensures SortedByKeyDesc(Merged(ones, twos), RecordCount)
    ensures forall v :: WithKey(Merged(ones, twos), RecordCount, v) == WithKey(Tagged(ones, 1) + Tagged(twos, 2), RecordCount, v)
  {
    SortByKeyDescFacts(Tagged(ones, 1) + Tagged(twos, 2), RecordCount);
  }

  /** Every merged record is a kept 1-gram tagged 1 or a 2-gram tagged 2. */
  lemma MergedRecords(ones: seq<(int, string)>, twos: seq<(int, string)>, x: Record)
    requires x in Merged(ones, twos)
    ensures (x.n == 1 && (x.count, x.gram) in ones) || (x.n == 2 && (x.count, x.gram) in twos)
  {
    var all := Tagged(ones, 1) + Tagged(twos, 2);
    MergedFacts(ones, twos);
    assert x in multiset(Merged(ones, twos));
    assert x in all;
    var i :| 0 <= i < |all| && all[i] == x;
    if i < |ones| {
      assert all[i] == Record(ones[i].0, ones[i].1, 1);
    } else {
      assert all[i] == Record(twos[i - |ones|].0, twos[i - |ones|].1, 2);
    }
  }

  /** The line `f"{count}\t{char}\t{n}"` (the file adds a newline after it). */
  function MergedLine(r: Record): string
  {
    IntToString(r.count) + "\t" + r.gram + "\t" + NatToString(r.n)
  }

  /** The corpus loader reads a merged line back as its count and gram, when
      the count fits in a `usize`; a negative count is refused. */
  lemma MergedLineParses(r: Record)
    requires '\t' !in r.gram
    ensures 0 <= r.count <= USIZE_MAX ==> Corpus.ParseNgramLine(MergedLine(r)) == Some((r.count, r.gram))
    ensures r.count < 0 ==> Corpus.ParseNgramLine(MergedLine(r)) == None
  {
    var tag := NatToString(r.n);
    assert '\t' !in tag by {
      forall k | 0 <= k < |tag| ensures tag[k] != '\t' {
        assert IsDigit(tag[k]);
      }
    }
    JoinThree(IntToString(r.count), r.gram, tag, "\t");
    if 0 <= r.count <= USIZE_MAX {
      Corpus.ParseNgramLineRoundTrip(r.count, r.gram, [tag]);
    } else if r.count < 0 {
      var number := IntToString(r.count);
      var parts := [number, r.gram, tag];
      forall k | 0 <= k < |number| ensures number[k] != '\t' {
        if k > 0 {
          assert number[k] == NatToString(-r.count)[k - 1];
          assert IsDigit(number[k]);
        }
      }
      SplitJoin(parts, '\t');
      assert Split(MergedLine(r), '\t')[0] == number;
      assert number[0] == '-';
    }
  }
}
