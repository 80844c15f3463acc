/** The yoon 2-gram extractor: from a 2-gram file, keep the entries whose
    n-gram has two characters and ends in a small kana (a yoon), in file order,
    and write them as `count \t ngram` lines. */
module ExtractYoon {
  import opened Common
  import opened ScriptLines

  /** The small kana the script treats as yoon endings. */
  const YOON_CHARS: string := "ゃゅょゎァィゥェォヵヶャュョヮ"

  predicate IsYoon(c: char)
  {
    c in YOON_CHARS
  }

  /** The filter of the extraction loop. */
  predicate EndsInYoon(gram: string)
  {
    |gram| == 2 && IsYoon(gram[1])
  }

  /** The yoon set holds 15 distinct characters, none of them whitespace, a tab
      or the corpus placeholder 〓, and ゃ is one while や is not. */
  lemma YoonChars(c: char)
    ensures |YOON_CHARS| == 15 && NoRepeats(YOON_CHARS)
    ensures IsYoon(c) ==> !IsPyWhitespace(c) && c != '\t' && c != '〓'
    ensures IsYoon('ゃ') && IsYoon('ヶ') && !IsYoon('や') && !IsYoon('ん')
  {
  }

  /** `extract_yoon_2grams` without the file handling: the kept entries, or
      `None` when a line's count is not an integer. */
  method ExtractYoon2grams(lines: seq<string>) returns (r: Option<seq<(int, string)>>)
    ensures r == Kept(ReadAll(lines), EndsInYoon)
  {
    r := ReadEntries(lines, EndsInYoon);
  }

  /** Every kept n-gram has two characters and ends in a yoon; the kept entries
      are those of the lines listed by `KeptFrom`, a strictly increasing list
      that includes every line with such an entry. */
  lemma ExtractedEntries(lines: seq<string>)
    requires Kept(ReadAll(lines), EndsInYoon).Some?
    ensures forall i :: 0 <= i < |Kept(ReadAll(lines), EndsInYoon).value| ==>
              EndsInYoon(Kept(ReadAll(lines), EndsInYoon).value[i].1)
    ensures |Kept(ReadAll(lines), EndsInYoon).value| == |KeptFrom(ReadAll(lines), EndsInYoon)|
    ensures forall i :: 0 <= i < |KeptFrom(ReadAll(lines), EndsInYoon)| ==>
              ReadLine(lines[KeptFrom(ReadAll(lines), EndsInYoon)[i]])
                == Entry(Kept(ReadAll(lines), EndsInYoon).value[i].0, Kept(ReadAll(lines), EndsInYoon).value[i].1)
    ensures forall i, j :: 0 <= i < j < |KeptFrom(ReadAll(lines), EndsInYoon)| ==>
              KeptFrom(ReadAll(lines), EndsInYoon)[i] < KeptFrom(ReadAll(lines), EndsInYoon)[j]
    ensures forall j :: 0 <= j < |lines| && ReadLine(lines[j]).Entry? && EndsInYoon(ReadLine(lines[j]).gram) ==>
              j in KeptFrom(ReadAll(lines), EndsInYoon)
  {
    var outcomes := ReadAll(lines);
    KeptIsSubsequence(outcomes, EndsInYoon);
    KeptFromFacts(outcomes, EndsInYoon);
  }

  /** The line `f"{count}\t{ngram}"` (the file adds a newline after it). */
  function OutputLine(entry: (int, string)): string
  {
    IntToString(entry.0) + "\t" + entry.1
  }

  /** The lines of the output file, each with its newline. */
  function OutputLines(entries: seq<(int, string)>): (r: seq<string>)
    ensures |r| == |entries| && forall i :: 0 <= i < |entries| ==> r[i] == OutputLine(entries[i]) + "\n"
  {
    seq(|entries|, i requires 0 <= i < |entries| => OutputLine(entries[i]) + "\n")
  }

  /** The merger reads each written line back as the written entry. */
  lemma OutputLineReadBack(entry: (int, string))
    requires EndsInYoon(entry.1) && '\t' !in entry.1
    ensures ReadLine(OutputLine(entry) + "\n") == Entry(entry.0, entry.1)
  {
    YoonChars(entry.1[1]);
    JoinTwo(IntToString(entry.0), entry.1, "\t");
    assert [IntToString(entry.0), entry.1] + [] == [IntToString(entry.0), entry.1];
    ReadLineRoundTrip(entry.0, entry.1, []);
  }

  /** Reading the whole output file back, keeping every entry, gives the
      extracted entries in the same order. */
  lemma OutputReadBack(entries: seq<(int, string)>, keep: string -> bool)
    requires forall i :: 0 <= i < |entries| ==> EndsInYoon(entries[i].1) && '\t' !in entries[i].1 && keep(entries[i].1)
    ensures Kept(ReadAll(OutputLines(entries)), keep) == Some(entries)
  {
    var outcomes := ReadAll(OutputLines(entries));
    forall i | 0 <= i < |entries| ensures outcomes[i] == Entry(entries[i].0, entries[i].1) {
      OutputLineReadBack(entries[i]);
    }
    KeptAllEntries(outcomes, entries, keep);
  }

  lemma {:induction false} KeptAllEntries(outcomes: seq<LineRead>, entries: seq<(int, string)>, keep: string -> bool)
    requires |outcomes| == |entries|
    requires forall i :: 0 <= i < |entries| ==> outcomes[i] == Entry(entries[i].0, entries[i].1) && keep(entries[i].1)
    ensures Kept(outcomes, keep) == Some(entries)
    decreases |entries|
  {
    if |entries| > 0 {
      var k := |entries| - 1;
      KeptAllEntries(outcomes[..k], entries[..k], keep);
      assert entries == entries[..k] + [(entries[k].0, entries[k].1)];
    }
  }
}
