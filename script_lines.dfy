/** The line reading shared by the two small corpus scripts (the yoon 2-gram
    extractor and the 1-gram/yoon merger): each line is stripped and split on
    tabs; a line with fewer than two fields is skipped, and otherwise its first
    field must be an integer (Python's `int` raises on anything else, which ends
    the script) and its second field is the n-gram. */
module ScriptLines {
  import opened Common

  datatype LineRead = Skipped | Malformed | Entry(count: int, gram: string)

  /** What one line of an n-gram file contributes. */
  function ReadLine(line: string): (r: LineRead)
    ensures r.Skipped? <==> |Split(Strip(line), '\t')| < 2
    ensures r.Malformed? <==> |Split(Strip(line), '\t')| >= 2 && ParsePyInt(Split(Strip(line), '\t')[0]).None?
    ensures r.Entry? ==> '\t' !in r.gram && Some(r.count) == ParsePyInt(Split(Strip(line), '\t')[0])
  {
    var parts := Split(Strip(line), '\t');
    if |parts| < 2 then Skipped
    else
      match ParsePyInt(parts[0])
      case None => Malformed
      case Some(c) => Entry(c, parts[1])
  }

  /** What each line contributes, line by line. */
  function ReadAll(lines: seq<string>): (r: seq<LineRead>)
    ensures |r| == |lines| && forall i :: 0 <= i < |lines| ==> r[i] == ReadLine(lines[i])
  {
    seq(|lines|, i requires 0 <= i < |lines| => ReadLine(lines[i]))
  }

  /** The `(count, ngram)` entries of the lines read as `outcomes` whose n-gram
      `keep` accepts, in line order; `None` when some line is malformed. */
  function Kept(outcomes: seq<LineRead>, keep: string -> bool): Option<seq<(int, string)>>
  {
    if |outcomes| == 0 then Some([])
    else
      match Kept(outcomes[..|outcomes| - 1], keep)
      case None => None
      case Some(acc) => Step(acc, outcomes[|outcomes| - 1], keep)
  }

  /** One line's effect on the entries read so far. */
  function Step(acc: seq<(int, string)>, outcome: LineRead, keep: string -> bool): Option<seq<(int, string)>>
  {
    match outcome
    case Malformed => None
    case Skipped => Some(acc)
    case Entry(c, g) => Some(if keep(g) then acc + [(c, g)] else acc)
  }

  lemma KeptPrefixStep(outcomes: seq<LineRead>, i: nat, acc: seq<(int, string)>, keep: string -> bool)
    requires i < |outcomes| && Kept(outcomes[..i], keep) == Some(acc)
    ensures Kept(outcomes[..i + 1], keep) == Step(acc, outcomes[i], keep)
  {
    assert outcomes[..i + 1][..i] == outcomes[..i];
  }

  /** The indices of the lines whose entry is kept, in increasing order. */
  function KeptFrom(outcomes: seq<LineRead>, keep: string -> bool): (from: seq<nat>)
    ensures forall i :: 0 <= i < |from| ==> from[i] < |outcomes|
  {
    if |outcomes| == 0 then []
    else
      var last := outcomes[|outcomes| - 1];
      KeptFrom(outcomes[..|outcomes| - 1], keep) + (if last.Entry? && keep(last.gram) then [|outcomes| - 1] else [])
  }

  /** The loop of the scripts: read the lines one by one, stopping at the first
      malformed one. */
  method ReadEntries(lines: seq<string>, keep: string -> bool) returns (r: Option<seq<(int, string)>>)
    ensures r == Kept(ReadAll(lines), keep)
  {
    ghost var outcomes := ReadAll(lines);
    var acc: seq<(int, string)> := [];
    for i := 0 to |lines|
      invariant Kept(outcomes[..i], keep) == Some(acc)
    {
      KeptPrefixStep(outcomes, i, acc, keep);
      var next := ReadOne(acc, lines[i], keep);
      if next.None? {
        KeptNoneExtends(outcomes, i + 1, |outcomes|, keep);
        assert outcomes[..|outcomes|] == outcomes;
        return None;
      }
      acc := next.value;
    }
    assert outcomes[..|outcomes|] == outcomes;
    return Some(acc);
  }

  /** One pass of the loop: the line is read and its entry kept or dropped. */
  method ReadOne(acc: seq<(int, string)>, line: string, keep: string -> bool) returns (next: Option<seq<(int, string)>>)
    ensures next == Step(acc, ReadLine(line), keep)
  {
    var read := ReadLine(line);
    match read {
      case Malformed =>
        next := None;
      case Skipped =>
        next := Some(acc);
      case Entry(c, g) =>
        next := Some(if keep(g) then acc + [(c, g)] else acc);
    }
  }

  /** Once a prefix contains a malformed line, every longer prefix fails too. */
  lemma {:induction false} KeptNoneExtends(outcomes: seq<LineRead>, p: nat, q: nat, keep: string -> bool)
    requires p <= q <= |outcomes| && Kept(outcomes[..p], keep).None?
    ensures Kept(outcomes[..q], keep).None?
    decreases q - p
  {
    if p < q {
      assert outcomes[..p + 1][..p] == outcomes[..p];
      KeptNoneExtends(outcomes, p + 1, q, keep);
    }
  }

  /** Reading fails exactly when some line has two fields and a first field that
      is not an integer. */
  lemma {:induction false} KeptNoneIff(outcomes: seq<LineRead>, keep: string -> bool)
    ensures Kept(outcomes, keep).None? <==> exists j :: 0 <= j < |outcomes| && outcomes[j].Malformed?
  {
    if |outcomes| > 0 {
      var init := outcomes[..|outcomes| - 1];
      var last := |outcomes| - 1;
      KeptNoneIff(init, keep);
      if exists j :: 0 <= j < |outcomes| && outcomes[j].Malformed? {
        var j :| 0 <= j < |outcomes| && outcomes[j].Malformed?;
        if j < last {
          assert init[j] == outcomes[j];
        }
      }
      if Kept(init, keep).None? {
        var j :| 0 <= j < |init| && init[j].Malformed?;
        assert outcomes[j] == init[j];
      }
    }
  }

  /** The kept entries are exactly the entries of the lines listed by
      `KeptFrom`, in that order: a subsequence of the input in input order. */
  lemma {:induction false} KeptIsSubsequence(outcomes: seq<LineRead>, keep: string -> bool)
    requires Kept(outcomes, keep).Some?
    ensures |Kept(outcomes, keep).value| == |KeptFrom(outcomes, keep)|
    ensures forall i :: 0 <= i < |KeptFrom(outcomes, keep)| ==>
              outcomes[KeptFrom(outcomes, keep)[i]] == Entry(Kept(outcomes, keep).value[i].0, Kept(outcomes, keep).value[i].1)
              && keep(Kept(outcomes, keep).value[i].1)
  {
    if |outcomes| > 0 {
      var init := outcomes[..|outcomes| - 1];
      KeptIsSubsequence(init, keep);
      var from := KeptFrom(init, keep);
      forall i | 0 <= i < |from| ensures outcomes[from[i]] == init[from[i]] {
      }
    }
  }

  /** `KeptFrom` is strictly increasing and lists every line whose entry is kept. */
  lemma {:induction false} KeptFromFacts(outcomes: seq<LineRead>, keep: string -> bool)
    ensures forall i, j :: 0 <= i < j < |KeptFrom(outcomes, keep)| ==> KeptFrom(outcomes, keep)[i] < KeptFrom(outcomes, keep)[j]
    ensures forall j :: 0 <= j < |outcomes| && outcomes[j].Entry? && keep(outcomes[j].gram) ==> j in KeptFrom(outcomes, keep)
  {
    if |outcomes| > 0 {
      var init := outcomes[..|outcomes| - 1];
      var last := |outcomes| - 1;
      var from := KeptFrom(init, keep);
      var extra: seq<nat> := if outcomes[last].Entry? && keep(outcomes[last].gram) then [last] else [];
      assert KeptFrom(outcomes, keep) == from + extra;
      KeptFromFacts(init, keep);
      forall j | 0 <= j < |outcomes| && outcomes[j].Entry? && keep(outcomes[j].gram) ensures j in from + extra {
        if j < last {
          assert outcomes[j] == init[j];
          assert j in from;
        }
      }
      forall i, j | 0 <= i < j < |from + extra| ensures (from + extra)[i] < (from + extra)[j] {
        if j == |from| {
          assert (from + extra)[i] == from[i] < |init|;
        }
      }
    }
  }

  /** A line `count \t ngram \t ...` (with its newline) is read back as exactly
      that entry, when the n-gram ends in a visible character. */
  lemma ReadLineRoundTrip(count: int, gram: string, rest: seq<string>)
    requires |gram| > 0 && '\t' !in gram && !IsPyWhitespace(gram[|gram| - 1])
    requires forall k :: 0 <= k < |rest| ==> '\t' !in rest[k] && |rest[k]| > 0
    requires |rest| > 0 ==> !IsPyWhitespace(rest[|rest| - 1][|rest[|rest| - 1]| - 1])
    ensures ReadLine(Join([IntToString(count), gram] + rest, "\t") + "\n") == Entry(count, gram)
  {
    var number := IntToString(count);
    var parts := [number, gram] + rest;
    var line := Join(parts, "\t");
    IntToStringShape(count);
    assert '\t' !in number;
    forall k | 0 <= k < |parts| ensures '\t' !in parts[k] {
    }
    JoinEnds(parts, "\t");
    StripNewlineTerminated(line);
    SplitJoin(parts, '\t');
    ParsePyIntRoundTrip(count);
  }

  /** A rendered integer starts with a digit or '-' and holds no tab. */
  lemma IntToStringShape(n: int)
    ensures |IntToString(n)| > 0 && !IsPyWhitespace(IntToString(n)[0])
    ensures '\t' !in IntToString(n)
  {
    var s := IntToString(n);
    var d := NatToString(if n < 0 then -n else n);
    assert forall k :: 0 <= k < |d| ==> IsDigit(d[k]);
  }

  /** A join starts with its first piece and ends with its last, when those are
      not empty. */
  lemma {:induction false} JoinEnds(parts: seq<string>, sep: string)
    requires |parts| >= 1 && |parts[0]| > 0 && |parts[|parts| - 1]| > 0
    ensures |Join(parts, sep)| > 0
    ensures Join(parts, sep)[0] == parts[0][0]
    ensures Join(parts, sep)[|Join(parts, sep)| - 1] == parts[|parts| - 1][|parts[|parts| - 1]| - 1]
    decreases |parts|
  {
    if |parts| > 1 {
      var tail := parts[1..];
      if |tail| > 1 {
        assert |tail[0]| >= 0;
      }
      JoinEndsTail(tail, sep);
    }
  }

  lemma {:induction false} JoinEndsTail(parts: seq<string>, sep: string)
    requires |parts| >= 1 && |parts[|parts| - 1]| > 0
    ensures |Join(parts, sep)| > 0
    ensures Join(parts, sep)[|Join(parts, sep)| - 1] == parts[|parts| - 1][|parts[|parts| - 1]| - 1]
    decreases |parts|
  {
    if |parts| > 1 {
      JoinEndsTail(parts[1..], sep);
    }
  }
}
