/** Shared vocabulary of the model: optional values, the text token stored in a
    grid cell, string splitting and joining, decimal numbers, and a few facts
    about sequences, multisets and map sums used by several components. */
module Common {

  datatype Option<+T> = None | Some(value: T)

  /** A cell's content: one kana, a two-kana digraph (consonant + small ya/yu/yo)
      or a punctuation / shift symbol. */
  type Symbol = string

  /** The full-width space that marks an empty cell. */
  const BLANK: Symbol := "　"

  /** The NUL character the source also treats as "nothing here". */
  const NUL: Symbol := "\0"

  // ---------------------------------------------------------------------------
  // Sequences
  // ---------------------------------------------------------------------------

  /** No element occurs twice. */
  ghost predicate Distinct<T(!new)>(s: seq<T>)
  {
    forall x :: multiset(s)[x] <= 1
  }

  /** Two different indices holding the same value make that value occur twice. */
  lemma {:induction false} TwoIndicesCountTwice<T>(s: seq<T>, i: nat, j: nat)
    requires i < j < |s| && s[i] == s[j]
    ensures multiset(s)[s[i]] >= 2
  {
    assert s == s[..i] + [s[i]] + s[i+1..j] + [s[j]] + s[j+1..];
  }

  lemma DistinctNoTwoIndices<T(!new)>(s: seq<T>, i: nat, j: nat)
    requires Distinct(s) && i < |s| && j < |s| && i != j
    ensures s[i] != s[j]
  {
    if s[i] == s[j] {
      if i < j { TwoIndicesCountTwice(s, i, j); } else { TwoIndicesCountTwice(s, j, i); }
    }
  }

  /** No two positions hold the same value (the pairwise form of `Distinct`). */
  predicate NoRepeats<T(==)>(s: seq<T>)
  {
    forall i, j :: 0 <= i < j < |s| ==> s[i] != s[j]
  }

  lemma {:induction false} NoRepeatsDistinct<T(!new)>(s: seq<T>)
    requires NoRepeats(s)
    ensures Distinct(s)
    decreases |s|
  {
    if |s| > 0 {
      var init := s[..|s| - 1];
      assert NoRepeats(init) by {
        forall i, j | 0 <= i < j < |init| ensures init[i] != init[j] {
          assert init[i] == s[i] && init[j] == s[j];
        }
      }
      NoRepeatsDistinct(init);
      assert s == init + [s[|s| - 1]];
      forall k | 0 <= k < |init| ensures init[k] != s[|s| - 1] {
        assert init[k] == s[k];
      }
    }
  }

  lemma DistinctNoRepeats<T(!new)>(s: seq<T>)
    requires Distinct(s)
    ensures NoRepeats(s)
  {
    forall i, j | 0 <= i < j < |s| ensures s[i] != s[j] {
      DistinctNoTwoIndices(s, i, j);
    }
  }

  /** A sequence without repeats has as many distinct elements as positions. */
  lemma {:induction false} NoRepeatsCard<T>(s: seq<T>)
    requires NoRepeats(s)
    ensures |set x | x in s| == |s|
    decreases |s|
  {
    if |s| > 0 {
      var init := s[..|s| - 1];
      var last := s[|s| - 1];
      assert NoRepeats(init) by {
        forall i, j | 0 <= i < j < |init| ensures init[i] != init[j] {
          assert init[i] == s[i] && init[j] == s[j];
        }
      }
      NoRepeatsCard(init);
      forall k | 0 <= k < |init| ensures init[k] != last {
        assert init[k] == s[k];
      }
      assert s == init + [last];
      assert (set x | x in s) == (set x | x in init) + {last};
    }
  }

  /** `n` copies of `x`. */
  function Repeat<T>(x: T, n: nat): (r: seq<T>)
    ensures |r| == n && forall i :: 0 <= i < n ==> r[i] == x
  {
    seq(n, _ => x)
  }

  // ---------------------------------------------------------------------------
  // Splitting and joining on a separator character
  // ---------------------------------------------------------------------------

  /** The pieces of `s` between occurrences of `sep` (Rust `str::split(char)`,
      Python `str.split(str)` with a one-character separator): always at least
      one piece, and no piece contains the separator. */
  function Split(s: string, sep: char): (parts: seq<string>)
    ensures |parts| >= 1
    ensures forall k :: 0 <= k < |parts| ==> sep !in parts[k]
    decreases |s|
  {
    if |s| == 0 then [""]
    else
      var rest := Split(s[1..], sep);
      if s[0] == sep then [""] + rest
      else [[s[0]] + rest[0]] + rest[1..]
  }

  /** The pieces joined with `sep` between consecutive pieces. */
  function Join(parts: seq<string>, sep: string): (s: string)
  {
    if |parts| == 0 then ""
    else if |parts| == 1 then parts[0]
    else parts[0] + sep + Join(parts[1..], sep)
  }

  /** Splitting undoes nothing: joining the pieces back gives the input. */
  lemma {:induction false} JoinSplit(s: string, sep: char)
    ensures Join(Split(s, sep), [sep]) == s
    decreases |s|
  {
    if |s| > 0 {
      var rest := Split(s[1..], sep);
      JoinSplit(s[1..], sep);
      if s[0] == sep {
        assert Split(s, sep) == [""] + rest;
        assert ([""] + rest)[1..] == rest;
      } else {
        var parts := Split(s, sep);
        assert parts == [[s[0]] + rest[0]] + rest[1..];
        if |rest| == 1 {
          assert Join(parts, [sep]) == [s[0]] + rest[0];
          assert s == [s[0]] + s[1..];
        } else {
          assert parts[1..] == rest[1..];
          assert Join(rest, [sep]) == rest[0] + [sep] + Join(rest[1..], [sep]);
          assert s == [s[0]] + s[1..];
        }
      }
    }
  }

  /** Splitting a join of separator-free pieces gives the pieces back. */
  lemma {:induction false} SplitJoin(parts: seq<string>, sep: char)
    requires |parts| >= 1
    requires forall k :: 0 <= k < |parts| ==> sep !in parts[k]
    ensures Split(Join(parts, [sep]), sep) == parts
    decreases |parts|, |parts[0]|
  {
    if |parts[0]| == 0 {
      if |parts| == 1 {
        assert Join(parts, [sep]) == "";
      } else {
        SplitJoin(parts[1..], sep);
        var s := Join(parts, [sep]);
        assert s == [sep] + Join(parts[1..], [sep]);
        assert s[1..] == Join(parts[1..], [sep]);
        assert [""] + parts[1..] == parts;
      }
    } else {
      var c := parts[0][0];
      var tailParts := [parts[0][1..]] + parts[1..];
      assert tailParts[1..] == parts[1..];
      forall k | 0 <= k < |tailParts| ensures sep !in tailParts[k] {
        if k > 0 {
          assert tailParts[k] == parts[k];
        }
      }
      SplitJoin(tailParts, sep);
      var s := Join(parts, [sep]);
      JoinCons(parts, sep);
      assert s == [c] + Join(tailParts, [sep]);
      assert s[1..] == Join(tailParts, [sep]);
      assert c != sep by { assert parts[0][0] in parts[0]; }
      assert [[c] + parts[0][1..]] + parts[1..] == parts by {
        assert [c] + parts[0][1..] == parts[0];
      }
    }
  }

  lemma JoinCons(parts: seq<string>, sep: char)
    requires |parts| >= 1 && |parts[0]| >= 1
    ensures Join(parts, [sep]) == [parts[0][0]] + Join([parts[0][1..]] + parts[1..], [sep])
  {
    var p0 := parts[0];
    var rest := p0[1..];
    var tailParts := [rest] + parts[1..];
    if |parts| == 1 {
      assert p0 == [p0[0]] + rest;
    } else {
      var j := Join(parts[1..], [sep]);
      assert Join(tailParts, [sep]) == rest + [sep] + j by {
        assert tailParts[1..] == parts[1..];
      }
      assert [p0[0]] + (rest + [sep] + j) == p0 + [sep] + j by {
        assert p0 == [p0[0]] + rest;
      }
    }
  }

  /** Three fields joined by a separator. */
  lemma JoinThree(a: string, b: string, c: string, sep: string)
    ensures Join([a, b, c], sep) == a + sep + b + sep + c
  {
    assert [a, b, c][1..] == [b, c];
    assert [b, c][1..] == [c];
    assert Join([b, c], sep) == b + sep + c;
    assert Join([a, b, c], sep) == a + sep + (b + sep + c);
  }

  lemma JoinTwo(a: string, b: string, sep: string)
    ensures Join([a, b], sep) == a + sep + b
  {
    assert [a, b][1..] == [b];
  }

  /** `t` occurs as a contiguous piece of `s` (Python's `t in s` on strings). */
  predicate IsSubstring(t: string, s: string)
  {
    exists i, j :: 0 <= i <= j <= |s| && s[i..j] == t
  }

  // ---------------------------------------------------------------------------
  // Decimal numbers
  // ---------------------------------------------------------------------------

  /** The largest value of a 64-bit `usize`. */
  const USIZE_MAX: nat := 0xFFFF_FFFF_FFFF_FFFF

  predicate IsDigit(c: char) { '0' <= c <= '9' }

  predicate AllDigits(s: string) { forall k :: 0 <= k < |s| ==> IsDigit(s[k]) }

  function DigitValue(c: char): nat requires IsDigit(c) { c as int - '0' as int }

  function DigitChar(d: nat): (c: char)
    requires d < 10
    ensures IsDigit(c) && DigitValue(c) == d
  {
    ('0' as int + d) as char
  }

  /** The value of a string of decimal digits, most significant first. */
  function DigitsValue(s: string): nat
    requires AllDigits(s)
  {
    if |s| == 0 then 0 else DigitsValue(s[..|s| - 1]) * 10 + DigitValue(s[|s| - 1])
  }

  /** The shortest decimal rendering of `n` (Rust `format!("{}")`, Python `f"{n}"`). */
  function NatToString(n: nat): (s: string)
    ensures |s| >= 1 && AllDigits(s)
  {
    if n < 10 then [DigitChar(n)] else NatToString(n / 10) + [DigitChar(n % 10)]
  }

  /** A signed integer in decimal, with a leading `-` when negative. */
  function IntToString(n: int): (s: string)
  {
    if n < 0 then "-" + NatToString(-n) else NatToString(n)
  }

  lemma {:induction false} NatToStringValue(n: nat)
    ensures DigitsValue(NatToString(n)) == n
  {
    var s := NatToString(n);
    if n >= 10 {
      NatToStringValue(n / 10);
      assert s[..|s| - 1] == NatToString(n / 10);
    }
  }

  /** Rust `str::parse::<usize>()`: an optional leading `+`, then one or more
      ASCII digits whose value fits in 64 bits; anything else is an error. */
  function ParseUsize(s: string): (r: Option<nat>)
    ensures r.Some? ==> r.value <= USIZE_MAX
  {
    var digits := if |s| > 0 && s[0] == '+' then s[1..] else s;
    if |digits| == 0 || !AllDigits(digits) then None
    else if DigitsValue(digits) > USIZE_MAX then None
    else Some(DigitsValue(digits))
  }

  /** Every number a 64-bit `usize` can hold is parsed back from its decimal
      rendering. */
  lemma ParseUsizeRoundTrip(n: nat)
    requires n <= USIZE_MAX
    ensures ParseUsize(NatToString(n)) == Some(n)
  {
    NatToStringValue(n);
  }

  /** The digit part Python `int()` accepts: ASCII digits in groups joined
      by single underscores, starting and ending with a digit. */
  predicate PyDigits(s: string)
    decreases |s|
  {
    && |s| > 0 && IsDigit(s[0])
    && (|s| == 1 || if s[1] == '_' then PyDigits(s[2..]) else PyDigits(s[1..]))
  }

  /** The digits of a digit part with its underscores left out. */
  function WithoutUnderscores(s: string): (r: string)
    requires PyDigits(s)
    ensures AllDigits(r) && 0 < |r| <= |s|
    decreases |s|
  {
    if |s| == 1 then [s[0]]
    else if s[1] == '_' then [s[0]] + WithoutUnderscores(s[2..])
    else [s[0]] + WithoutUnderscores(s[1..])
  }

  /** A non-empty run of ASCII digits is a digit part without underscores. */
  lemma {:induction false} DigitsArePyDigits(d: string)
    requires |d| > 0 && AllDigits(d)
    ensures PyDigits(d) && WithoutUnderscores(d) == d
  {
    if |d| > 1 {
      assert IsDigit(d[1]);
      DigitsArePyDigits(d[1..]);
      assert d == [d[0]] + d[1..];
    }
  }

  /** Python `int(s)` on a decimal string: surrounding whitespace is ignored,
      then an optional sign and the digits, whose underscores do not count.
      Decimal digits outside ASCII are not accepted here. */
  function ParsePyInt(s: string): (r: Option<int>)
  {
    ParseSigned(Strip(s))
  }

  /** An optional sign, then the digit part. */
  function ParseSigned(t: string): Option<int>
  {
    var negative := |t| > 0 && t[0] == '-';
    var digits := if |t| > 0 && (t[0] == '+' || t[0] == '-') then t[1..] else t;
    if !PyDigits(digits) then None
    else
      var v: int := DigitsValue(WithoutUnderscores(digits));
      Some(if negative then -v else v)
  }

  /** A run of digits parses to its value. */
  lemma ParseSignedDigits(d: string)
    requires |d| > 0 && AllDigits(d)
    ensures ParseSigned(d) == Some(DigitsValue(d))
  {
    DigitsArePyDigits(d);
    assert IsDigit(d[0]);
  }

  /** A minus sign and a run of digits parse to the negated value. */
  lemma ParseSignedNegative(t: string, d: string)
    requires |d| > 0 && AllDigits(d) && |t| > 0 && t[0] == '-' && t[1..] == d
    ensures ParseSigned(t) == Some(-(DigitsValue(d) as int))
  {
    DigitsArePyDigits(d);
  }

  lemma ParsePyIntRoundTrip(n: int)
    ensures ParsePyInt(IntToString(n)) == Some(n)
  {
    var s := IntToString(n);
    var m: nat := if n < 0 then -n else n;
    var d := NatToString(m);
    NatToStringValue(m);
    if n < 0 {
      assert s[0] == '-' && s[1..] == d;
      ParseSignedNegative(s, d);
    } else {
      ParseSignedDigits(d);
    }
    assert s[|s| - 1] == d[|d| - 1];
    assert IsDigit(s[|s| - 1]) && (IsDigit(s[0]) || s[0] == '-');
    StripVisible(s);
  }

  /** `int()` ignores whitespace after the field. */
  lemma ParsePyIntTrailingSpace()
    ensures ParsePyInt("12 ") == Some(12)
  {
    StripTrailing("12", ' ');
    assert "12" + [' '] == "12 ";
    DigitsArePyDigits("12");
    assert "12"[..1] == "1";
  }

  /** `int()` ignores whitespace before the sign. */
  lemma ParsePyIntLeadingTab()
    ensures ParsePyInt("\t-7") == Some(-7)
  {
    StripLeading("-7", '\t');
    assert ['\t'] + "-7" == "\t-7";
    assert "-7"[1..] == "7";
    DigitsArePyDigits("7");
  }

  /** `int()` skips single underscores between digits. */
  lemma ParsePyIntUnderscores()
    ensures ParsePyInt("1_000") == Some(1000)
  {
    StripVisible("1_000");
    assert "1_000"[2..] == "000";
    DigitsArePyDigits("000");
    assert WithoutUnderscores("1_000") == "1000";
    assert "1000"[..3] == "100" && "100"[..2] == "10" && "10"[..1] == "1";
    assert DigitsValue("1000") == 1000;
  }

  /** `int()` refuses a doubled, a leading and a trailing underscore. */
  lemma ParsePyIntRefusesUnderscores()
    ensures ParsePyInt("1__0") == None && ParsePyInt("_1") == None && ParsePyInt("1_") == None
  {
    StripVisible("1__0");
    assert "1__0"[2..] == "_0";
    assert !PyDigits("1__0");
    StripVisible("_1");
    assert !PyDigits("_1");
    StripVisible("1_");
    assert "1_"[2..] == "";
    assert !PyDigits("1_");
  }

  /** `int()` refuses a sign apart from its digits and an empty field. */
  lemma ParsePyIntRefusesSign()
    ensures ParsePyInt("- 1") == None && ParsePyInt("") == None
  {
    StripVisible("- 1");
    assert "- 1"[1..] == " 1";
    assert !PyDigits(" 1");
  }

  // ---------------------------------------------------------------------------
  // Python whitespace and str.strip()
  // ---------------------------------------------------------------------------

  /** The characters for which Python's `str.isspace()` holds. */
  predicate IsPyWhitespace(c: char)
  {
    c == ' ' || ('\t' <= c <= '\r') || ('\U{1C}' <= c <= '\U{1F}') || c == '\U{85}'
    || c == '\U{A0}' || c == '\U{1680}' || ('\U{2000}' <= c <= '\U{200A}')
    || c == '\U{2028}' || c == '\U{2029}' || c == '\U{202F}' || c == '\U{205F}'
    || c == '\U{3000}'
  }

  function StripLeft(s: string): (r: string)
    ensures |r| <= |s| && (|r| > 0 ==> !IsPyWhitespace(r[0]))
    ensures exists k :: 0 <= k <= |s| && r == s[k..]
  {
    if |s| > 0 && IsPyWhitespace(s[0]) then
      var r := StripLeft(s[1..]);
      var k :| 0 <= k <= |s[1..]| && r == s[1..][k..];
      assert r == s[k + 1..];
      r
    else
      assert s == s[0..];
      s
  }

  function StripRight(s: string): (r: string)
    ensures |r| <= |s| && (|r| > 0 ==> !IsPyWhitespace(r[|r| - 1]))
    ensures r == s[..|r|]
  {
    if |s| > 0 && IsPyWhitespace(s[|s| - 1]) then
      var r := StripRight(s[..|s| - 1]);
      assert r == s[..|r|];
      r
    else s
  }

  /** Python `str.strip()`: drop leading and trailing whitespace. */
  function Strip(s: string): (r: string)
    ensures |r| <= |s|
    ensures |r| > 0 ==> !IsPyWhitespace(r[0]) && !IsPyWhitespace(r[|r| - 1])
  {
    var l := StripLeft(s);
    var r := StripRight(l);
    assert |r| > 0 ==> r[0] == l[0];
    r
  }

  /** A string that starts and ends with visible characters is its own strip. */
  lemma StripVisible(s: string)
    requires |s| > 0 && !IsPyWhitespace(s[0]) && !IsPyWhitespace(s[|s| - 1])
    ensures Strip(s) == s
  {
    assert StripLeft(s) == s;
  }

  /** Stripping a line that ends in a newline but otherwise starts and ends with
      visible characters removes exactly the newline. */
  lemma StripNewlineTerminated(s: string)
    requires |s| > 0 && !IsPyWhitespace(s[0]) && !IsPyWhitespace(s[|s| - 1])
    ensures Strip(s + "\n") == s
  {
    StripTrailing(s, '\n');
  }

  /** One whitespace character after a visibly bounded string is stripped. */
  lemma StripTrailing(s: string, c: char)
    requires |s| > 0 && !IsPyWhitespace(s[0]) && !IsPyWhitespace(s[|s| - 1]) && IsPyWhitespace(c)
    ensures Strip(s + [c]) == s
  {
    var t := s + [c];
    assert t[0] == s[0];
    assert StripLeft(t) == t;
    assert t[..|t| - 1] == s;
    assert StripRight(s) == s;
    assert StripRight(t) == StripRight(s);
  }

  /** One whitespace character before a visibly bounded string is stripped. */
  lemma StripLeading(s: string, c: char)
    requires |s| > 0 && !IsPyWhitespace(s[0]) && !IsPyWhitespace(s[|s| - 1]) && IsPyWhitespace(c)
    ensures Strip([c] + s) == s
  {
    var t := [c] + s;
    assert t[1..] == s;
    assert StripLeft(s) == s;
    assert StripLeft(t) == s;
  }

  // ---------------------------------------------------------------------------
  // Sums of the values of a map (the iteration order of a hash map is unknown)
  // ---------------------------------------------------------------------------

  ghost function SumValues<K>(m: map<K, nat>): nat
    decreases |m|
  {
    if |m| == 0 then 0
    else
      var k :| k in m;
      m[k] + SumValues(m - {k})
  }

  /** The sum does not depend on the order in which the keys are taken. */
  lemma {:induction false} SumValuesRemove<K>(m: map<K, nat>, k: K)
    requires k in m
    ensures SumValues(m) == m[k] + SumValues(m - {k})
    decreases |m|
  {
    var k' :| k' in m && SumValues(m) == m[k'] + SumValues(m - {k'});
    if k' != k {
      var m1 := m - {k'};
      var m2 := m - {k};
      assert |m1| == |m| - 1 && |m2| == |m| - 1;
      assert k in m1 && m1[k] == m[k];
      assert k' in m2 && m2[k'] == m[k'];
      SumValuesRemove(m1, k);
      SumValuesRemove(m2, k');
      RemoveBoth(m, k, k');
      assert SumValues(m) == m[k'] + (m[k] + SumValues(m1 - {k}));
      assert SumValues(m2) == m[k'] + SumValues(m1 - {k});
    }
  }

  // ---------------------------------------------------------------------------
  // The indices below n that satisfy a predicate, in increasing order
  // ---------------------------------------------------------------------------

  function IndicesWhere(n: nat, p: nat -> bool): seq<nat>
  {
    if n == 0 then [] else IndicesWhere(n - 1, p) + (if p(n - 1) then [n - 1] else [])
  }

  function CountWhere(n: nat, p: nat -> bool): nat
  {
    if n == 0 then 0 else CountWhere(n - 1, p) + (if p(n - 1) then 1 else 0)
  }

  /** One entry per satisfying index, each below `n` and satisfying `p`. */
  lemma {:induction false} IndicesWhereFacts(n: nat, p: nat -> bool)
    ensures |IndicesWhere(n, p)| == CountWhere(n, p)
    ensures forall k :: 0 <= k < |IndicesWhere(n, p)| ==> IndicesWhere(n, p)[k] < n && p(IndicesWhere(n, p)[k])
  {
    if n > 0 {
      IndicesWhereFacts(n - 1, p);
    }
  }

  /** The k-th satisfying index has exactly k satisfying indices below it. */
  lemma {:induction false} IndicesWhereRank(n: nat, p: nat -> bool, k: nat)
    requires k < |IndicesWhere(n, p)|
    ensures CountWhere(IndicesWhere(n, p)[k], p) == k
  {
    var prev := IndicesWhere(n - 1, p);
    IndicesWhereFacts(n - 1, p);
    if k < |prev| {
      IndicesWhereRank(n - 1, p, k);
      assert IndicesWhere(n, p)[k] == prev[k];
    } else {
      assert IndicesWhere(n, p)[k] == n - 1;
    }
  }

  lemma {:induction false} CountWhereMonotone(i: nat, j: nat, p: nat -> bool)
    requires i <= j
    ensures CountWhere(i, p) <= CountWhere(j, p)
    decreases j - i
  {
    if i < j {
      CountWhereMonotone(i, j - 1, p);
    }
  }

  /** Removing two keys in either order leaves the same map. */
  lemma RemoveBoth<K, V>(m: map<K, V>, a: K, b: K)
    ensures m - {b} - {a} == m - {a} - {b}
  {
  }

  /** A permutation has the same elements. */
  lemma PermutationMembers<T>(a: seq<T>, b: seq<T>)
    requires multiset(a) == multiset(b)
    ensures forall x :: x in a <==> x in b
  {
    forall x ensures x in a <==> x in b {
      assert x in a <==> x in multiset(a);
      assert x in b <==> x in multiset(b);
    }
  }

  lemma TakeNext<T>(s: seq<T>, i: nat)
    requires i < |s|
    ensures s[..i + 1] == s[..i] + [s[i]]
  {
  }

  lemma SumValuesEmpty<K>(m: map<K, nat>)
    requires |m| == 0
    ensures SumValues(m) == 0
  {
  }

  /** Adding one to a key's count (inserting it with 1 when new) adds one to the sum. */
  lemma SumValuesIncrement<K>(m: map<K, nat>, k: K)
    ensures SumValues(m[k := if k in m then m[k] + 1 else 1]) == SumValues(m) + 1
  {
    var m' := m[k := if k in m then m[k] + 1 else 1];
    SumValuesRemove(m', k);
    assert m' - {k} == m - {k};
    if k in m {
      SumValuesRemove(m, k);
    } else {
      assert m - {k} == m;
    }
  }

  // ---------------------------------------------------------------------------
  // Stable sorting by a descending key (Rust `sort_by(|a, b| b.cmp(a))`
  // on a key, Python `sort(key=lambda x: -k(x))`; both sorts are stable)
  // ---------------------------------------------------------------------------

  predicate SortedByKeyDesc<T>(s: seq<T>, key: T -> real)
  {
    forall i, j :: 0 <= i < j < |s| ==> key(s[i]) >= key(s[j])
  }

  /** Insert `x` in front of the first element whose key is not larger. */
  function InsertByKey<T>(x: T, s: seq<T>, key: T -> real): seq<T>
  {
    if |s| == 0 || key(s[0]) <= key(x) then [x] + s
    else [s[0]] + InsertByKey(x, s[1..], key)
  }

  /** A stable insertion sort into non-increasing key order. */
  function SortByKeyDesc<T>(s: seq<T>, key: T -> real): seq<T>
  {
    if |s| == 0 then [] else InsertByKey(s[0], SortByKeyDesc(s[1..], key), key)
  }

  /** The elements of `s` whose key is `v`, in their order in `s`. */
  function WithKey<T>(s: seq<T>, key: T -> real, v: real): (r: seq<T>)
    ensures |r| <= |s|
  {
    if |s| == 0 then []
    else (if key(s[0]) == v then [s[0]] else []) + WithKey(s[1..], key, v)
  }

  lemma {:induction false} InsertByKeyMultiset<T>(x: T, s: seq<T>, key: T -> real)
    ensures multiset(InsertByKey(x, s, key)) == multiset(s) + multiset{x}
    decreases |s|
  {
    if !(|s| == 0 || key(s[0]) <= key(x)) {
      InsertByKeyMultiset(x, s[1..], key);
      assert s == [s[0]] + s[1..];
    }
  }

  lemma {:induction false} InsertByKeySorted<T>(x: T, s: seq<T>, key: T -> real)
    requires SortedByKeyDesc(s, key)
    ensures SortedByKeyDesc(InsertByKey(x, s, key), key)
    decreases |s|
  {
    var r := InsertByKey(x, s, key);
    if |s| == 0 || key(s[0]) <= key(x) {
      assert r == [x] + s;
      forall i, j | 0 <= i < j < |r| ensures key(r[i]) >= key(r[j]) {
        assert r[j] == s[j - 1];
        if i > 0 {
          assert r[i] == s[i - 1];
        } else if j > 1 {
          assert key(s[0]) >= key(s[j - 1]);
        }
      }
    } else {
      var tail := s[1..];
      assert SortedByKeyDesc(tail, key) by {
        forall i, j | 0 <= i < j < |tail| ensures key(tail[i]) >= key(tail[j]) {
          assert tail[i] == s[i + 1] && tail[j] == s[j + 1];
        }
      }
      var t := InsertByKey(x, tail, key);
      InsertByKeySorted(x, tail, key);
      InsertByKeyMultiset(x, tail, key);
      assert r == [s[0]] + t;
      forall j | 0 <= j < |t| ensures key(s[0]) >= key(t[j]) {
        assert t[j] in multiset(t);
        if t[j] != x {
          assert t[j] in multiset(tail);
          var k :| 0 <= k < |tail| && tail[k] == t[j];
          assert tail[k] == s[k + 1];
        }
      }
      forall i, j | 0 <= i < j < |r| ensures key(r[i]) >= key(r[j]) {
        assert r[j] == t[j - 1];
        if i > 0 {
          assert r[i] == t[i - 1];
        }
      }
    }
  }

  lemma {:induction false} InsertByKeyWithKey<T>(x: T, s: seq<T>, key: T -> real, v: real)
    ensures WithKey(InsertByKey(x, s, key), key, v)
              == (if key(x) == v then [x] else []) + WithKey(s, key, v)
    decreases |s|
  {
    var r := InsertByKey(x, s, key);
    if |s| == 0 || key(s[0]) <= key(x) {
      assert r == [x] + s;
      assert r[1..] == s;
    } else {
      var t := InsertByKey(x, s[1..], key);
      InsertByKeyWithKey(x, s[1..], key, v);
      var cx := if key(x) == v then [x] else [];
      var c0 := if key(s[0]) == v then [s[0]] else [];
      assert r == [s[0]] + t;
      assert r[0] == s[0] && r[1..] == t;
      assert WithKey(r, key, v) == c0 + WithKey(t, key, v);
      assert WithKey(s, key, v) == c0 + WithKey(s[1..], key, v);
      assert c0 == [] || cx == [];
      assert c0 + (cx + WithKey(s[1..], key, v)) == cx + (c0 + WithKey(s[1..], key, v));
    }
  }

  /** The sort keeps every element, orders by non-increasing key, and is stable:
      the elements sharing a key keep their relative order. */
  lemma {:induction false} SortByKeyDescFacts<T>(s: seq<T>, key: T -> real)
    ensures |SortByKeyDesc(s, key)| == |s|
    ensures multiset(SortByKeyDesc(s, key)) == multiset(s)
    ensures SortedByKeyDesc(SortByKeyDesc(s, key), key)
    ensures forall v :: WithKey(SortByKeyDesc(s, key), key, v) == WithKey(s, key, v)
    decreases |s|
  {
    if |s| > 0 {
      var t := SortByKeyDesc(s[1..], key);
      SortByKeyDescFacts(s[1..], key);
      InsertByKeyMultiset(s[0], t, key);
      InsertByKeySorted(s[0], t, key);
      forall v ensures WithKey(SortByKeyDesc(s, key), key, v) == WithKey(s, key, v) {
        InsertByKeyWithKey(s[0], t, key, v);
      }
      assert s == [s[0]] + s[1..];
      assert |multiset(SortByKeyDesc(s, key))| == |multiset(s)|;
    }
  }

  // ---------------------------------------------------------------------------
  // Sliding windows (Rust `slice::windows(n)`, Python `text[i:i+n]` for each i)
  // ---------------------------------------------------------------------------

  /** The contiguous pieces of length `n` of `s`, by starting position. */
  function Windows<T>(s: seq<T>, n: nat): (w: seq<seq<T>>)
    requires n >= 1
    ensures |w| == if |s| >= n then |s| - n + 1 else 0
    ensures forall i :: 0 <= i < |w| ==> w[i] == s[i..i + n]
  {
    if |s| >= n then seq(|s| - n + 1, i requires 0 <= i < |s| - n + 1 => s[i..i + n]) else []
  }
}
