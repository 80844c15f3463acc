/** Reference data the evaluator compares a layout with: the Tsuki 2-263 kana
    layout, the romaji decomposition of kana into consonant and vowel, the
    Colemak key of each romaji letter, and the default frequency-ordered kana
    list. */
module References {
  import opened Common
  import opened Layouts

  // ---------------------------------------------------------------------------
  // Tsuki 2-263
  // ---------------------------------------------------------------------------

  /** The Tsuki front face (no shift), three rows of ten keys, row-major. */
  const TSUKI_FRONT: string := "そこしてょつんいのり" + "はか☆とたくう★゛き" + "すけになさっる、。゜"

  /** The Tsuki back face (shifted), row-major. */
  const TSUKI_BACK: string := "ぁひほふめぬえみやぇ" + "ぃをらあよまおもわゆ" + "ぅへせゅゃむろねーぉ"

  /** The front-face keys that are not kana: the two shift keys and the two
      voicing marks. */
  predicate TsukiFrontSkipped(c: char)
  {
    c == '☆' || c == '★' || c == '゛' || c == '゜'
  }

  /** The Tsuki key at `k` (row-major) of face `layer`. */
  function TsukiPos(layer: nat, k: nat): (p: KeyPos)
    requires k < 30
    ensures p.row < 3 && p.col < 10 && p.row * 10 + p.col == k
  {
    KeyPos(layer, k / 10, k % 10)
  }

  /** The Tsuki character at a position of face 0 or 1. */
  function TsukiCharAt(p: KeyPos): char
    requires p.layer <= 1 && p.row < 3 && p.col < 10
  {
    (if p.layer == 0 then TSUKI_FRONT else TSUKI_BACK)[p.row * 10 + p.col]
  }

  /** A character of face `table` that the insertion loop for that face records. */
  predicate InFace(table: string, skipFront: bool, c: char)
  {
    c in table && !(skipFront && TsukiFrontSkipped(c))
  }

  /** One of the two insertion loops of `TsukiLayout::new`: every character of
      the face (except the front face's shift and voicing keys) is inserted
      with its position, overwriting an earlier entry. */
  method InsertFace(m: map<char, KeyPos>, layer: nat, table: string, skipFront: bool)
    returns (r: map<char, KeyPos>)
    requires |table| == 30
    ensures forall c :: c in r <==> c in m || InFace(table, skipFront, c)
    ensures forall c :: c in m && !InFace(table, skipFront, c) ==> r[c] == m[c]
    ensures forall c :: InFace(table, skipFront, c) ==>
              r[c].layer == layer && r[c].row < 3 && r[c].col < 10 && table[r[c].row * 10 + r[c].col] == c
  {
    r := m;
    for k := 0 to 30
      invariant forall c :: c in r <==> c in m || InFace(table[..k], skipFront, c)
      invariant forall c :: c in m && !InFace(table[..k], skipFront, c) ==> r[c] == m[c]
      invariant forall c :: InFace(table[..k], skipFront, c) ==>
                  r[c].layer == layer && r[c].row < 3 && r[c].col < 10 && table[r[c].row * 10 + r[c].col] == c
    {
      var c := table[k];
      InFaceNext(table, k, skipFront);
      if !(skipFront && TsukiFrontSkipped(c)) {
        r := r[c := TsukiPos(layer, k)];
      }
    }
    assert table[..30] == table;
  }

  /** A character is in the face up to `k + 1` when it is in the face up to
      `k` or is the recorded character at `k`. */
  lemma InFaceNext(table: string, k: nat, skipFront: bool)
    requires k < |table|
    ensures forall d :: InFace(table[..k + 1], skipFront, d) <==>
              InFace(table[..k], skipFront, d) || (d == table[k] && !(skipFront && TsukiFrontSkipped(d)))
  {
    TakeNext(table, k);
    forall d ensures InFace(table[..k + 1], skipFront, d) <==>
                       InFace(table[..k], skipFront, d) || (d == table[k] && !(skipFront && TsukiFrontSkipped(d)))
    {
      assert d in table[..k] + [table[k]] <==> d in table[..k] || d in [table[k]];
    }
  }

  /** `TsukiLayout::new`: the front face is inserted first (layer 0), then the
      back face (layer 1), so a character on both faces ends up at its back-face
      position. */
  method NewTsukiLayout() returns (positions: map<char, KeyPos>)
    ensures forall c :: c in positions <==> c in TSUKI_BACK || (c in TSUKI_FRONT && !TsukiFrontSkipped(c))
    ensures forall c :: c in positions ==>
              positions[c].layer <= 1 && positions[c].row < 3 && positions[c].col < 10 &&
              TsukiCharAt(positions[c]) == c
    ensures forall c :: c in TSUKI_BACK ==> positions[c].layer == 1
    ensures forall c :: c in positions && c !in TSUKI_BACK ==> positions[c].layer == 0
  {
    var front := InsertFace(map[], 0, TSUKI_FRONT, true);
    positions := InsertFace(front, 1, TSUKI_BACK, false);
    forall c | c in positions
      ensures positions[c].layer <= 1 && positions[c].row < 3 && positions[c].col < 10 &&
              TsukiCharAt(positions[c]) == c
    {
      var p := positions[c];
      if InFace(TSUKI_BACK, false, c) {
        assert p.layer == 1 && TSUKI_BACK[p.row * 10 + p.col] == c;
      } else {
        assert p == front[c] && InFace(TSUKI_FRONT, true, c);
        assert p.layer == 0 && TSUKI_FRONT[p.row * 10 + p.col] == c;
      }
    }
  }

  // ---------------------------------------------------------------------------
  // Romaji phonemes and Colemak positions
  // ---------------------------------------------------------------------------

  /** The romaji letters a kana splits into; every phoneme is one letter. */
  type Phoneme = char

  /** Colemak's key of each romaji letter, as (row, column), in table order. */
  const COLEMAK_POSITIONS: seq<(Phoneme, nat, nat)> := [
    // vowels
    ('a', 1, 0), ('e', 1, 7), ('i', 1, 8), ('o', 1, 9), ('u', 0, 7),
    // consonants
    ('k', 2, 6), ('s', 1, 2), ('t', 1, 3), ('n', 1, 6), ('h', 1, 5),
    ('m', 2, 7), ('y', 0, 8), ('r', 1, 1), ('w', 0, 1), ('g', 0, 4),
    ('z', 2, 0), ('d', 1, 4), ('b', 2, 4), ('p', 0, 3), ('f', 0, 2),
    ('j', 0, 5), ('l', 0, 6), ('v', 2, 3), ('q', 0, 0), ('x', 2, 1),
    ('c', 2, 2)
  ]

  /** The letters of the Colemak table, in table order. */
  const COLEMAK_PHONEMES: string := "aeioukstnhmyrwgzdbpfjlvqxc"

  /** The table has 26 entries, each at a key of the three main rows. */
  lemma ColemakTableShape()
    ensures |COLEMAK_POSITIONS| == |COLEMAK_PHONEMES| == 26
    ensures forall k :: 0 <= k < 26 ==> COLEMAK_POSITIONS[k].0 == COLEMAK_PHONEMES[k]
    ensures forall k :: 0 <= k < 26 ==> COLEMAK_POSITIONS[k].1 < 3 && COLEMAK_POSITIONS[k].2 < 10
  {
  }

  /** The letters of the table are the letters a-z, each once. */
  lemma ColemakLettersDistinct()
    ensures forall k :: 0 <= k < |COLEMAK_PHONEMES| ==> 'a' <= COLEMAK_PHONEMES[k] <= 'z'
    ensures forall k, l :: 0 <= k < l < |COLEMAK_PHONEMES| ==> COLEMAK_PHONEMES[k] != COLEMAK_PHONEMES[l]
  {
  }

  /** The map after inserting the first `k` table entries in order, a later
      entry overwriting an earlier one. */
  function ColemakTableUpTo(k: nat): map<Phoneme, (nat, nat)>
    requires k <= |COLEMAK_POSITIONS|
  {
    if k == 0 then map[]
    else ColemakTableUpTo(k - 1)[COLEMAK_POSITIONS[k - 1].0 := (COLEMAK_POSITIONS[k - 1].1, COLEMAK_POSITIONS[k - 1].2)]
  }

  /** The whole table as a map from phoneme to (row, column). */
  function ColemakTable(): map<Phoneme, (nat, nat)>
  {
    ColemakTableUpTo(|COLEMAK_POSITIONS|)
  }

  /** The phoneme-to-key map the evaluator builds by inserting every table
      entry in order. */
  method BuildPhonemePositions() returns (m: map<Phoneme, (nat, nat)>)
    ensures m == ColemakTable()
    ensures forall ph :: ph in m <==> ph in COLEMAK_PHONEMES
    ensures forall k :: 0 <= k < |COLEMAK_POSITIONS| ==>
              m[COLEMAK_POSITIONS[k].0] == (COLEMAK_POSITIONS[k].1, COLEMAK_POSITIONS[k].2)
    ensures forall ph :: ph in m ==> m[ph].0 < 3 && m[ph].1 < 10
  {
    m := map[];
    for k := 0 to |COLEMAK_POSITIONS|
      invariant m == ColemakTableUpTo(k)
    {
      var (ph, row, col) := COLEMAK_POSITIONS[k];
      m := m[ph := (row, col)];
    }
    ColemakTableUpToFacts(|COLEMAK_POSITIONS|);
    assert COLEMAK_PHONEMES[..26] == COLEMAK_PHONEMES;
  }

  /** After `k` insertions the map holds exactly the first `k` letters, each at
      its table position (the letters are distinct, so nothing is overwritten). */
  lemma ColemakTableUpToFacts(k: nat)
    requires k <= |COLEMAK_POSITIONS|
    ensures forall ph :: ph in ColemakTableUpTo(k) <==> ph in COLEMAK_PHONEMES[..k]
    ensures forall j :: 0 <= j < k ==>
              && COLEMAK_POSITIONS[j].0 in ColemakTableUpTo(k)
              && ColemakTableUpTo(k)[COLEMAK_POSITIONS[j].0] == (COLEMAK_POSITIONS[j].1, COLEMAK_POSITIONS[j].2)
    ensures forall ph :: ph in ColemakTableUpTo(k) ==> ColemakTableUpTo(k)[ph].0 < 3 && ColemakTableUpTo(k)[ph].1 < 10
  {
    ColemakTableKeys(k);
    ColemakTableValues(k);
    ColemakTableBounds(k);
  }

  lemma {:induction false} ColemakTableKeys(k: nat)
    requires k <= |COLEMAK_POSITIONS|
    ensures forall ph :: ph in ColemakTableUpTo(k) <==> ph in COLEMAK_PHONEMES[..k]
  {
    if k > 0 {
      ColemakTableKeys(k - 1);
      ColemakTableShape();
      assert COLEMAK_PHONEMES[..k] == COLEMAK_PHONEMES[..k - 1] + [COLEMAK_POSITIONS[k - 1].0];
    }
  }

  lemma {:induction false} ColemakTableValues(k: nat)
    requires k <= |COLEMAK_POSITIONS|
    ensures forall j :: 0 <= j < k ==>
              && COLEMAK_POSITIONS[j].0 in ColemakTableUpTo(k)
              && ColemakTableUpTo(k)[COLEMAK_POSITIONS[j].0] == (COLEMAK_POSITIONS[j].1, COLEMAK_POSITIONS[j].2)
  {
    if k > 0 {
      ColemakTableValues(k - 1);
      ColemakTableShape();
      ColemakLettersDistinct();
      var e := COLEMAK_POSITIONS[k - 1];
      forall j | 0 <= j < k - 1
        ensures COLEMAK_POSITIONS[j].0 != e.0
      {
        assert COLEMAK_POSITIONS[j].0 == COLEMAK_PHONEMES[j];
      }
    }
  }

  lemma {:induction false} ColemakTableBounds(k: nat)
    requires k <= |COLEMAK_POSITIONS|
    ensures forall ph :: ph in ColemakTableUpTo(k) ==> ColemakTableUpTo(k)[ph].0 < 3 && ColemakTableUpTo(k)[ph].1 < 10
  {
    if k > 0 {
      ColemakTableBounds(k - 1);
      ColemakTableShape();
    }
  }

  /** The romaji vowels. */
  const VOWEL_PHONEMES: string := "aiueo"

  /** `romaji_phonemes`: the consonant and the vowel of a kana in romaji, for
      the 71 kana of the plain, voiced and half-voiced rows and ん. */
  function RomajiPhonemes(c: char): (r: (Option<Phoneme>, Option<Phoneme>))
    ensures r.0.Some? ==> r.0.value in COLEMAK_PHONEMES
    ensures r.1.Some? ==> r.1.value in VOWEL_PHONEMES
    ensures r.0.Some? && r.1.None? <==> c == 'ん'
  {
    match c
    case 'あ' => (None, Some('a'))
    case 'い' => (None, Some('i'))
    case 'う' => (None, Some('u'))
    case 'え' => (None, Some('e'))
    case 'お' => (None, Some('o'))
    case 'か' => (Some('k'), Some('a'))
    case 'き' => (Some('k'), Some('i'))
    case 'く' => (Some('k'), Some('u'))
    case 'け' => (Some('k'), Some('e'))
    case 'こ' => (Some('k'), Some('o'))
    case 'さ' => (Some('s'), Some('a'))
    case 'し' => (Some('s'), Some('i'))
    case 'す' => (Some('s'), Some('u'))
    case 'せ' => (Some('s'), Some('e'))
    case 'そ' => (Some('s'), Some('o'))
    case 'た' => (Some('t'), Some('a'))
    case 'ち' => (Some('t'), Some('i'))
    case 'つ' => (Some('t'), Some('u'))
    case 'て' => (Some('t'), Some('e'))
    case 'と' => (Some('t'), Some('o'))
    case 'な' => (Some('n'), Some('a'))
    case 'に' => (Some('n'), Some('i'))
    case 'ぬ' => (Some('n'), Some('u'))
    case 'ね' => (Some('n'), Some('e'))
    case 'の' => (Some('n'), Some('o'))
    case 'は' => (Some('h'), Some('a'))
    case 'ひ' => (Some('h'), Some('i'))
    case 'ふ' => (Some('h'), Some('u'))
    case 'へ' => (Some('h'), Some('e'))
    case 'ほ' => (Some('h'), Some('o'))
    case 'ま' => (Some('m'), Some('a'))
    case 'み' => (Some('m'), Some('i'))
    case 'む' => (Some('m'), Some('u'))
    case 'め' => (Some('m'), Some('e'))
    case 'も' => (Some('m'), Some('o'))
    case 'や' => (Some('y'), Some('a'))
    case 'ゆ' => (Some('y'), Some('u'))
    case 'よ' => (Some('y'), Some('o'))
    case 'ら' => (Some('r'), Some('a'))
    case 'り' => (Some('r'), Some('i'))
    case 'る' => (Some('r'), Some('u'))
    case 'れ' => (Some('r'), Some('e'))
    case 'ろ' => (Some('r'), Some('o'))
    case 'わ' => (Some('w'), Some('a'))
    case 'を' => (Some('w'), Some('o'))
    case 'ん' => (Some('n'), None)
    case 'が' => (Some('g'), Some('a'))
    case 'ぎ' => (Some('g'), Some('i'))
    case 'ぐ' => (Some('g'), Some('u'))
    case 'げ' => (Some('g'), Some('e'))
    case 'ご' => (Some('g'), Some('o'))
    case 'ざ' => (Some('z'), Some('a'))
    case 'じ' => (Some('z'), Some('i'))
    case 'ず' => (Some('z'), Some('u'))
    case 'ぜ' => (Some('z'), Some('e'))
    case 'ぞ' => (Some('z'), Some('o'))
    case 'だ' => (Some('d'), Some('a'))
    case 'ぢ' => (Some('d'), Some('i'))
    case 'づ' => (Some('d'), Some('u'))
    case 'で' => (Some('d'), Some('e'))
    case 'ど' => (Some('d'), Some('o'))
    case 'ば' => (Some('b'), Some('a'))
    case 'び' => (Some('b'), Some('i'))
    case 'ぶ' => (Some('b'), Some('u'))
    case 'べ' => (Some('b'), Some('e'))
    case 'ぼ' => (Some('b'), Some('o'))
    case 'ぱ' => (Some('p'), Some('a'))
    case 'ぴ' => (Some('p'), Some('i'))
    case 'ぷ' => (Some('p'), Some('u'))
    case 'ぺ' => (Some('p'), Some('e'))
    case 'ぽ' => (Some('p'), Some('o'))
    case _ => (None, None)
  }
}
