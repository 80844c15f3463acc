/** The generator of input-method tables from an analyzer description: the
    QWERTY-to-Colemak key map, the hazkey romaji table (a TSV of key sequences
    and the kana they produce, with prefix shift keys ★ and ☆ and a postfix
    voicing key ゛) and the Karabiner-Elements rule that emulates the same
    shifts with a variable. */
module RomajiTable {
  import opened Common
  import opened Export

  // ---------------------------------------------------------------------------
  // Key names
  // ---------------------------------------------------------------------------

  /** `QWERTY_TO_COLEMAK` on the 36 one-character keys: the Colemak key at
      the place of each QWERTY key. */
  function QwertyCharToColemak(c: char): Option<char>
  {
    match c
    case 'q' => Some('q') case 'w' => Some('w') case 'e' => Some('f') case 'r' => Some('p') case 't' => Some('g')
    case 'y' => Some('j') case 'u' => Some('l') case 'i' => Some('u') case 'o' => Some('y') case 'p' => Some(';')
    case 'a' => Some('a') case 's' => Some('r') case 'd' => Some('s') case 'f' => Some('t') case 'g' => Some('d')
    case 'h' => Some('h') case 'j' => Some('n') case 'k' => Some('e') case 'l' => Some('i') case ';' => Some('o')
    case 'z' => Some('z') case 'x' => Some('x') case 'c' => Some('c') case 'v' => Some('v') case 'b' => Some('b')
    case 'n' => Some('k') case 'm' => Some('m') case ',' => Some(',') case '.' => Some('.') case '/' => Some('/')
    case '[' => Some('[') case ']' => Some(']') case '\'' => Some('\'') case '-' => Some('-') case '=' => Some('=')
    case '\\' => Some('\\')
    case _ => None
  }

  /** The reverse table: the QWERTY key at the place of each Colemak key. */
  function ColemakCharToQwerty(c: char): Option<char>
  {
    match c
    case 'q' => Some('q') case 'w' => Some('w') case 'f' => Some('e') case 'p' => Some('r') case 'g' => Some('t')
    case 'j' => Some('y') case 'l' => Some('u') case 'u' => Some('i') case 'y' => Some('o') case ';' => Some('p')
    case 'a' => Some('a') case 'r' => Some('s') case 's' => Some('d') case 't' => Some('f') case 'd' => Some('g')
    case 'h' => Some('h') case 'n' => Some('j') case 'e' => Some('k') case 'i' => Some('l') case 'o' => Some(';')
    case 'z' => Some('z') case 'x' => Some('x') case 'c' => Some('c') case 'v' => Some('v') case 'b' => Some('b')
    case 'k' => Some('n') case 'm' => Some('m') case ',' => Some(',') case '.' => Some('.') case '/' => Some('/')
    case '[' => Some('[') case ']' => Some(']') case '\'' => Some('\'') case '-' => Some('-') case '=' => Some('=')
    case '\\' => Some('\\')
    case _ => None
  }

  /** The one-character part of the map is a permutation of its 36 keys. */
  lemma ColemakCharsBijective(c: char)
    ensures QwertyCharToColemak(c).Some? <==> ColemakCharToQwerty(c).Some?
    ensures QwertyCharToColemak(c).Some? ==> ColemakCharToQwerty(QwertyCharToColemak(c).value) == Some(c)
    ensures ColemakCharToQwerty(c).Some? ==> QwertyCharToColemak(ColemakCharToQwerty(c).value) == Some(c)
  {
  }

  /** `QWERTY_TO_COLEMAK`: the 36 one-character keys and the space key, which
      stays. */
  function QwertyToColemak(key: string): Option<string>
  {
    if key == "space" then Some("space")
    else if |key| == 1 && QwertyCharToColemak(key[0]).Some? then Some([QwertyCharToColemak(key[0]).value])
    else None
  }

  function ColemakToQwerty(key: string): Option<string>
  {
    if key == "space" then Some("space")
    else if |key| == 1 && ColemakCharToQwerty(key[0]).Some? then Some([ColemakCharToQwerty(key[0]).value])
    else None
  }

  /** The key map is a bijection of its 37 keys onto themselves: the two
      tables are defined on the same keys and undo each other. */
  lemma ColemakMapBijective(key: string)
    ensures QwertyToColemak(key).Some? <==> ColemakToQwerty(key).Some?
    ensures QwertyToColemak(key).Some? ==> ColemakToQwerty(QwertyToColemak(key).value) == Some(key)
    ensures ColemakToQwerty(key).Some? ==> QwertyToColemak(ColemakToQwerty(key).value) == Some(key)
  {
    if |key| == 1 {
      ColemakCharsBijective(key[0]);
      assert [key[0]] == key;
    }
  }

  /** `convert_key_to_layout`: the Colemak key when converting, falling back
      to the key itself; the key itself otherwise. */
  function ConvertKey(key: string, colemak: bool): (k: string)
    ensures !colemak ==> k == key
    ensures colemak && QwertyToColemak(key).None? ==> k == key
    ensures colemak && QwertyToColemak(key).Some? ==> k == QwertyToColemak(key).value
  {
    if colemak then (match QwertyToColemak(key) case Some(c) => c case None => key) else key
  }

  /** Converting never sends two keys to one. */
  lemma ConvertKeyInjective(a: string, b: string, colemak: bool)
    requires ConvertKey(a, colemak) == ConvertKey(b, colemak)
    ensures a == b
  {
    if colemak {
      ColemakMapBijective(a);
      ColemakMapBijective(b);
      ColemakMapBijective(ConvertKey(a, colemak));
    }
  }

  /** The key map agrees with the exporter's two key tables: every QWERTY key
      of a scanned row converts to the Colemak key at the same place. */
  lemma ConvertMatchesKeyTables(row: nat, col: nat)
    requires row < 3 && col < 10
    ensures ConvertKey(QWERTY_KEYS[row][col], true) == COLEMAK_KEYS[row][col]
  {
  }

  function ConvertAll(keys: seq<string>, colemak: bool): (converted: seq<string>)
    ensures |converted| == |keys|
    ensures forall i :: 0 <= i < |keys| ==> converted[i] == ConvertKey(keys[i], colemak)
  {
    seq(|keys|, i requires 0 <= i < |keys| => ConvertKey(keys[i], colemak))
  }

  /** A converted key is among the converted keys exactly when the key was
      among the keys. */
  lemma ConvertedMembership(key: string, keys: seq<string>, colemak: bool)
    ensures ConvertKey(key, colemak) in ConvertAll(keys, colemak) <==> key in keys
  {
    if ConvertKey(key, colemak) in ConvertAll(keys, colemak) {
      var i :| 0 <= i < |keys| && ConvertAll(keys, colemak)[i] == ConvertKey(key, colemak);
      ConvertKeyInjective(key, keys[i], colemak);
    }
    if key in keys {
      var i :| 0 <= i < |keys| && keys[i] == key;
      assert ConvertAll(keys, colemak)[i] == ConvertKey(key, colemak);
    }
  }

  /** `key_to_keycode`: the Karabiner key_code of a key name. */
  function KeyToKeycode(key: string): string
  {
    if key == "space" then "spacebar"
    else if |key| == 1 then
      (match key[0]
       case ';' => "semicolon" case '\'' => "quote" case ',' => "comma" case '.' => "period"
       case '/' => "slash" case '[' => "open_bracket" case ']' => "close_bracket" case '-' => "hyphen"
       case '=' => "equal_sign" case '\\' => "backslash"
       case _ => key)
    else key
  }

  /** The key name a key_code stands for. */
  function KeycodeToKey(code: string): string
  {
    if code == "semicolon" then ";" else if code == "quote" then "'" else if code == "comma" then ","
    else if code == "period" then "." else if code == "slash" then "/" else if code == "open_bracket" then "["
    else if code == "close_bracket" then "]" else if code == "hyphen" then "-" else if code == "equal_sign" then "="
    else if code == "backslash" then "\\" else if code == "spacebar" then "space"
    else code
  }

  /** Every one-character key and the space key get back from their key_code,
      so distinct keys have distinct codes. */
  lemma KeycodeRoundTrip(key: string)
    requires |key| == 1 || key == "space"
    ensures KeycodeToKey(KeyToKeycode(key)) == key
  {
  }

  // ---------------------------------------------------------------------------
  // Kana tables
  // ---------------------------------------------------------------------------

  /** `DAKUTEN_MAP`: the first ゛ voices a kana. */
  const DAKUTEN_MAP: seq<(char, char)> := [
    ('か', 'が'), ('き', 'ぎ'), ('く', 'ぐ'), ('け', 'げ'), ('こ', 'ご'),
    ('さ', 'ざ'), ('し', 'じ'), ('す', 'ず'), ('せ', 'ぜ'), ('そ', 'ぞ'),
    ('た', 'だ'), ('ち', 'ぢ'), ('つ', 'づ'), ('て', 'で'), ('と', 'ど'),
    ('は', 'ば'), ('ひ', 'び'), ('ふ', 'ぶ'), ('へ', 'べ'), ('ほ', 'ぼ'),
    ('う', 'ゔ')]

  /** `HANDAKUTEN_MAP`: the half-voiced kana of the は row. */
  const HANDAKUTEN_MAP: seq<(char, char)> := [
    ('は', 'ぱ'), ('ひ', 'ぴ'), ('ふ', 'ぷ'), ('へ', 'ぺ'), ('ほ', 'ぽ')]

  /** `DAKUTEN_TO_HANDAKUTEN_MAP`: a second ゛ turns a voiced ば-row kana
      half-voiced. */
  const DAKUTEN_TO_HANDAKUTEN_MAP: seq<(char, char)> := [
    ('ば', 'ぱ'), ('び', 'ぴ'), ('ぶ', 'ぷ'), ('べ', 'ぺ'), ('ぼ', 'ぽ')]

  /** `VOWEL_TO_KOGAKI_MAP`: ゛ after a vowel other than う makes it small. */
  const VOWEL_TO_KOGAKI_MAP: seq<(char, char)> := [
    ('あ', 'ぁ'), ('い', 'ぃ'), ('え', 'ぇ'), ('お', 'ぉ')]

  /** `VU_TO_KOGAKI_MAP`: a second ゛ after ゔ gives small う. */
  const VU_TO_KOGAKI_MAP: seq<(char, char)> := [('ゔ', 'ぅ')]

  /** `KOGAKI_MAP`: the small form of each kana that has one. */
  const KOGAKI_MAP: seq<(char, char)> := [
    ('あ', 'ぁ'), ('い', 'ぃ'), ('う', 'ぅ'), ('え', 'ぇ'), ('お', 'ぉ'),
    ('や', 'ゃ'), ('ゆ', 'ゅ'), ('よ', 'ょ'), ('つ', 'っ'), ('わ', 'ゎ')]

  /** The value of the first pair with key `k`. */
  function Lookup(pairs: seq<(char, char)>, k: char): (v: Option<char>)
    ensures v.Some? ==> exists i :: 0 <= i < |pairs| && pairs[i] == (k, v.value)
    ensures v.None? ==> forall i :: 0 <= i < |pairs| ==> pairs[i].0 != k
  {
    if |pairs| == 0 then None
    else if pairs[0].0 == k then Some(pairs[0].1)
    else
      var v := Lookup(pairs[1..], k);
      assert v.Some? ==> exists i :: 0 <= i < |pairs| && pairs[i] == (k, v.value) by {
        if v.Some? {
          var i :| 0 <= i < |pairs[1..]| && pairs[1..][i] == (k, v.value);
          assert pairs[i + 1] == (k, v.value);
        }
      }
      v
  }

  /** The first pair with key `k` decides the lookup. */
  lemma {:induction false} LookupAt(pairs: seq<(char, char)>, k: char, j: nat)
    requires j < |pairs| && pairs[j].0 == k
    requires forall i :: 0 <= i < j ==> pairs[i].0 != k
    ensures Lookup(pairs, k) == Some(pairs[j].1)
  {
    if j > 0 {
      LookupAt(pairs[1..], k, j - 1);
    }
  }

  /** Voicing and then voicing again gives the half-voiced kana: for each of
      はひふへほ, the second ゛ applied to its voiced form is `HANDAKUTEN_MAP`. */
  lemma HandakutenThroughDakuten(i: nat)
    requires i < |HANDAKUTEN_MAP|
    ensures Lookup(DAKUTEN_MAP, HANDAKUTEN_MAP[i].0).Some?
    ensures Lookup(DAKUTEN_TO_HANDAKUTEN_MAP, Lookup(DAKUTEN_MAP, HANDAKUTEN_MAP[i].0).value) == Some(HANDAKUTEN_MAP[i].1)
  {
    VoicedHaRow(i);
    HalfVoicedBaRow(i);
  }

  /** Each kana of the は row is voiced at its own place in `DAKUTEN_MAP`. */
  lemma VoicedHaRow(i: nat)
    requires i < |HANDAKUTEN_MAP|
    ensures Lookup(DAKUTEN_MAP, HANDAKUTEN_MAP[i].0) == Some(DAKUTEN_TO_HANDAKUTEN_MAP[i].0)
  {
    var h := HANDAKUTEN_MAP[i].0;
    NoHaRowBefore(h);
    LookupAt(DAKUTEN_MAP, h, 15 + i);
  }

  /** Each voiced kana of the ば row has its own entry. */
  lemma HalfVoicedBaRow(i: nat)
    requires i < |DAKUTEN_TO_HANDAKUTEN_MAP|
    ensures Lookup(DAKUTEN_TO_HANDAKUTEN_MAP, DAKUTEN_TO_HANDAKUTEN_MAP[i].0) == Some(HANDAKUTEN_MAP[i].1)
  {
    var v := DAKUTEN_TO_HANDAKUTEN_MAP[i].0;
    assert forall m :: 0 <= m < i ==> DAKUTEN_TO_HANDAKUTEN_MAP[m].0 != v;
    LookupAt(DAKUTEN_TO_HANDAKUTEN_MAP, v, i);
  }

  /** The は row comes after the か, さ and た rows in `DAKUTEN_MAP`, and
      each of its kana is voiced at its own place there. */
  lemma NoHaRowBefore(h: char)
    requires h in {'は', 'ひ', 'ふ', 'へ', 'ほ'}
    ensures forall m :: 0 <= m < 15 ==> DAKUTEN_MAP[m].0 != h
    ensures forall i :: 0 <= i < |HANDAKUTEN_MAP| && HANDAKUTEN_MAP[i].0 == h ==>
      forall m :: 15 <= m < 15 + i ==> DAKUTEN_MAP[m].0 != h
    ensures forall i :: 0 <= i < |HANDAKUTEN_MAP| ==>
      DAKUTEN_MAP[15 + i] == (HANDAKUTEN_MAP[i].0, DAKUTEN_TO_HANDAKUTEN_MAP[i].0)
  {
  }

  /** The second ゛ after a vowel gives the vowel's small form. */
  lemma VowelKogakiAgrees(i: nat)
    requires i < |VOWEL_TO_KOGAKI_MAP|
    ensures Lookup(KOGAKI_MAP, VOWEL_TO_KOGAKI_MAP[i].0) == Some(VOWEL_TO_KOGAKI_MAP[i].1)
  {
    var j := if i < 2 then i else i + 1;
    assert KOGAKI_MAP[j] == VOWEL_TO_KOGAKI_MAP[i];
    assert forall m :: 0 <= m < j ==> KOGAKI_MAP[m].0 != VOWEL_TO_KOGAKI_MAP[i].0;
    LookupAt(KOGAKI_MAP, VOWEL_TO_KOGAKI_MAP[i].0, j);
  }

  /** `KANA_TO_ROMAJI` of the script: the exporter's table except that ふ is
      typed "hu" and ヴ has no entry; a multi-character name has none. */
  function ScriptRomaji(ch: string): (romaji: Option<string>)
    ensures romaji.Some? ==> TypedOnLetters(romaji.value)
  {
    if |ch| != 1 then None
    else if ch[0] == 'ふ' then Some("hu")
    else if ch[0] == 'ヴ' then None
    else KanaToRomaji(ch[0])
  }

  // ---------------------------------------------------------------------------
  // The analyzer description
  // ---------------------------------------------------------------------------

  /** One conversion entry: the keys typed and the shift keys held. A missing
      list is empty. */
  datatype Mapping = Mapping(keys: seq<string>, shift: seq<string>)

  /** The analyzer description: its name and its conversion entries in
      document order. */
  datatype AnalyzerData = AnalyzerData(name: Option<string>, conversion: seq<(string, Mapping)>)

  /** One character name that Python's `isascii` accepts. */
  predicate SingleAscii(ch: string)
  {
    |ch| == 1 && ch[0] as int < 128
  }

  // ---------------------------------------------------------------------------
  // hazkey: classification of the conversion entries
  // ---------------------------------------------------------------------------

  /** The five key-to-kana tables the hazkey generator fills. */
  datatype Slot = BaseSlot | StarSlot | CircleSlot | StarDakutenSlot | CircleDakutenSlot

  /** The table a shifted or unshifted single-key entry goes to, checked in
      the generator's order; `None` for a shift set that names neither d nor
      k. */
  function ShiftSlot(shift: seq<string>): Option<Slot>
  {
    var hasD := "d" in shift;
    var hasK := "k" in shift;
    var hasL := "l" in shift;
    if |shift| == 0 then Some(BaseSlot)
    else if hasD && hasL then Some(StarDakutenSlot)
    else if hasK && hasL then Some(CircleDakutenSlot)
    else if hasD then Some(StarSlot)
    else if hasK then Some(CircleSlot)
    else None
  }

  /** Punctuation that keeps its first key unshifted whatever else it says. */
  predicate KeptAsIs(ch: string)
  {
    ch == "、" || ch == "。" || ch == "「" || ch == "」" || ch == "ー"
  }

  predicate HazkeySkipped(ch: string)
  {
    ch == " " || ch == "゛" || ch == "゜" || ch == "！" || SingleAscii(ch)
  }

  /** The table an entry goes to and the (unconverted) key it is stored
      under: punctuation at its first key, single-key kana by their shifts,
      everything else nowhere. */
  function HazkeySlotOf(ch: string, m: Mapping): (r: Option<(Slot, string)>)
    ensures r.Some? ==> |m.keys| > 0 && r.value.1 == m.keys[0]
    ensures r.Some? && !KeptAsIs(ch) ==> |m.keys| == 1 && !HazkeySkipped(ch) && ShiftSlot(m.shift) == Some(r.value.0)
  {
    if |m.keys| == 0 then None
    else if KeptAsIs(ch) then Some((BaseSlot, m.keys[0]))
    else if HazkeySkipped(ch) then None
    else if |m.keys| == 1 && ShiftSlot(m.shift).Some? then Some((ShiftSlot(m.shift).value, m.keys[0]))
    else None
  }

  datatype SlotMaps = SlotMaps(base: map<string, string>, star: map<string, string>, circle: map<string, string>,
                               starDakuten: map<string, string>, circleDakuten: map<string, string>)

  function SlotMap(maps: SlotMaps, slot: Slot): map<string, string>
  {
    match slot
    case BaseSlot => maps.base
    case StarSlot => maps.star
    case CircleSlot => maps.circle
    case StarDakutenSlot => maps.starDakuten
    case CircleDakutenSlot => maps.circleDakuten
  }

  /** Storing a kana under a key of one table, overwriting, the others kept. */
  function Store(maps: SlotMaps, slot: Slot, key: string, ch: string): (r: SlotMaps)
    ensures SlotMap(r, slot) == SlotMap(maps, slot)[key := ch]
    ensures forall s :: s != slot ==> SlotMap(r, s) == SlotMap(maps, s)
  {
    match slot
    case BaseSlot => maps.(base := maps.base[key := ch])
    case StarSlot => maps.(star := maps.star[key := ch])
    case CircleSlot => maps.(circle := maps.circle[key := ch])
    case StarDakutenSlot => maps.(starDakuten := maps.starDakuten[key := ch])
    case CircleDakutenSlot => maps.(circleDakuten := maps.circleDakuten[key := ch])
  }

  /** The tables after the first `n` entries, a later entry overwriting an
      earlier one at the same key. */
  function SlotMapsUpTo(conversion: seq<(string, Mapping)>, colemak: bool, n: nat): SlotMaps
    requires n <= |conversion|
  {
    if n == 0 then SlotMaps(map[], map[], map[], map[], map[])
    else
      var maps := SlotMapsUpTo(conversion, colemak, n - 1);
      var (ch, m) := conversion[n - 1];
      match HazkeySlotOf(ch, m)
      case None => maps
      case Some((slot, key)) => Store(maps, slot, ConvertKey(key, colemak), ch)
  }

  /** An entry stored at (slot, key) in the first `n` entries. */
  predicate StoredAt(conversion: seq<(string, Mapping)>, colemak: bool, slot: Slot, key: string, i: nat)
    requires i < |conversion|
  {
    var r := HazkeySlotOf(conversion[i].0, conversion[i].1);
    r.Some? && r.value.0 == slot && ConvertKey(r.value.1, colemak) == key
  }

  /** One entry changes at most its own table, at its own key. */
  lemma SlotMapsStep(conversion: seq<(string, Mapping)>, colemak: bool, n: nat, slot: Slot, key: string)
    requires 0 < n <= |conversion|
    ensures StoredAt(conversion, colemak, slot, key, n - 1) ==>
      key in SlotMap(SlotMapsUpTo(conversion, colemak, n), slot) && SlotMap(SlotMapsUpTo(conversion, colemak, n), slot)[key] == conversion[n - 1].0
    ensures !StoredAt(conversion, colemak, slot, key, n - 1) ==>
      (key in SlotMap(SlotMapsUpTo(conversion, colemak, n), slot) <==> key in SlotMap(SlotMapsUpTo(conversion, colemak, n - 1), slot))
      && (key in SlotMap(SlotMapsUpTo(conversion, colemak, n - 1), slot) ==>
            SlotMap(SlotMapsUpTo(conversion, colemak, n), slot)[key] == SlotMap(SlotMapsUpTo(conversion, colemak, n - 1), slot)[key])
  {
  }

  /** A table holds a key exactly when some entry went there under that key. */
  lemma {:induction false} SlotMapsKeys(conversion: seq<(string, Mapping)>, colemak: bool, n: nat, slot: Slot, key: string)
    requires n <= |conversion|
    ensures key in SlotMap(SlotMapsUpTo(conversion, colemak, n), slot) <==>
      exists i :: 0 <= i < n && StoredAt(conversion, colemak, slot, key, i)
  {
    if n > 0 {
      SlotMapsKeys(conversion, colemak, n - 1, slot, key);
      SlotMapsStep(conversion, colemak, n, slot, key);
      if !StoredAt(conversion, colemak, slot, key, n - 1) {
        if key in SlotMap(SlotMapsUpTo(conversion, colemak, n), slot) {
          var i :| 0 <= i < n - 1 && StoredAt(conversion, colemak, slot, key, i);
        }
      }
    }
  }

  /** A held key holds the character of the last entry stored there. */
  lemma {:induction false} SlotMapsLast(conversion: seq<(string, Mapping)>, colemak: bool, n: nat, slot: Slot, key: string, i: nat)
    requires i < n <= |conversion|
    requires StoredAt(conversion, colemak, slot, key, i)
    requires forall j :: i < j < n ==> !StoredAt(conversion, colemak, slot, key, j)
    ensures key in SlotMap(SlotMapsUpTo(conversion, colemak, n), slot)
    ensures SlotMap(SlotMapsUpTo(conversion, colemak, n), slot)[key] == conversion[i].0
  {
    SlotMapsStep(conversion, colemak, n, slot, key);
    if i < n - 1 {
      SlotMapsLast(conversion, colemak, n - 1, slot, key, i);
    }
  }

  /** The loop over the conversion entries. */
  method BuildSlotMaps(conversion: seq<(string, Mapping)>, colemak: bool) returns (maps: SlotMaps)
    ensures maps == SlotMapsUpTo(conversion, colemak, |conversion|)
  {
    maps := SlotMaps(map[], map[], map[], map[], map[]);
    for i := 0 to |conversion|
      invariant maps == SlotMapsUpTo(conversion, colemak, i)
    {
      var (ch, m) := conversion[i];
      var r := HazkeySlotOf(ch, m);
      if r.Some? {
        var (slot, key) := r.value;
        maps := Store(maps, slot, ConvertKey(key, colemak), ch);
      }
    }
  }

  // ---------------------------------------------------------------------------
  // hazkey: the lines
  // ---------------------------------------------------------------------------

  const LEFT_KEYS: seq<string> := ["q", "w", "e", "r", "t", "a", "s", "d", "f", "g", "z", "x", "c", "v", "b"]
  const RIGHT_KEYS: seq<string> := ["y", "u", "i", "o", "p", "[", "h", "j", "k", "l", ";", "'", "n", "m", ",", ".", "/", "\\"]
  const STAR_RIGHT_KEYS: seq<string> := ["y", "u", "i", "o", "p", "[", "h", "j", "k", "l", ";", "'", "]", "n", "m", ",", ".", "/"]
  const YOON_RIGHT_KEYS: seq<string> := ["y", "u", "i", "o", "p", "h", "j", "k", "l", ";", "n", "m"]

  /** How one key list is turned into lines: the left base keys (a stored
      kana, else ★ on the star key), the right base keys (☆, ゛ and ・ on their
      keys, else a stored kana), or a shifted table under a prefix. */
  datatype Section =
    | LeftBase(base: map<string, string>, starKey: string)
    | RightBase(base: map<string, string>, circleKey: string, dakutenKey: string)
    | Keyed(prefix: string, table: map<string, string>)

  /** The lines (none or one) for one QWERTY key. */
  function SectionLine(section: Section, key: string, colemak: bool): (lines: seq<string>)
    ensures |lines| <= 1
  {
    var k := ConvertKey(key, colemak);
    match section
    case LeftBase(base, starKey) =>
      if k in base then [k + "\t\t" + base[k]] else if k == starKey then [k + "\t\t★"] else []
    case RightBase(base, circleKey, dakutenKey) =>
      if k == circleKey then [k + "\t\t☆"]
      else if k == dakutenKey then [k + "\t゛"]
      else if key == "/" then [k + "\t・"]
      else if k in base then [k + "\t" + base[k]]
      else []
    case Keyed(prefix, table) =>
      if k in table then [prefix + k + "\t" + table[k]] else []
  }

  /** The lines for the first `n` keys of a list, in list order. */
  function SectionLines(section: Section, keys: seq<string>, colemak: bool, n: nat): (lines: seq<string>)
    requires n <= |keys|
    ensures |lines| <= n
  {
    if n == 0 then [] else SectionLines(section, keys, colemak, n - 1) + SectionLine(section, keys[n - 1], colemak)
  }

  /** A shifted table yields exactly one line per listed key it holds, in
      list order. */
  lemma {:induction false} KeyedLinesCount(prefix: string, table: map<string, string>, keys: seq<string>, colemak: bool, n: nat)
    requires n <= |keys|
    ensures |SectionLines(Keyed(prefix, table), keys, colemak, n)| == CountWhere(n, i => 0 <= i < |keys| && ConvertKey(keys[i], colemak) in table)
  {
    if n > 0 {
      KeyedLinesCount(prefix, table, keys, colemak, n - 1);
    }
  }

  /** Postfix ゛ lines `kana + ゛key → result` for a kana table. */
  function PairLines(pairs: seq<(char, char)>, dakutenKey: string): (lines: seq<string>)
    ensures |lines| == |pairs|
    ensures forall i :: 0 <= i < |pairs| ==> lines[i] == PairLine(pairs[i], dakutenKey)
  {
    seq(|pairs|, i requires 0 <= i < |pairs| => PairLine(pairs[i], dakutenKey))
  }

  /** `kana + ゛key → result`. */
  function PairLine(pair: (char, char), dakutenKey: string): string
  {
    [pair.0] + dakutenKey + "\t" + [pair.1]
  }

  /** The shift keys of the layout: ★ on d, ☆ on k, ゛ on l (QWERTY places). */
  function StarKeyOf(colemak: bool): string { ConvertKey("d", colemak) }
  function CircleKeyOf(colemak: bool): string { ConvertKey("k", colemak) }
  function DakutenKeyOf(colemak: bool): string { ConvertKey("l", colemak) }

  /** The lines before the postfix ゛ block: left base, ☆ left, right base,
      ★ right. */
  function HazkeyHead(maps: SlotMaps, colemak: bool): seq<string>
  {
    SectionLines(LeftBase(maps.base, StarKeyOf(colemak)), LEFT_KEYS, colemak, |LEFT_KEYS|)
    + SectionLines(Keyed("☆", maps.circle), LEFT_KEYS, colemak, |LEFT_KEYS|)
    + SectionLines(RightBase(maps.base, CircleKeyOf(colemak), DakutenKeyOf(colemak)), RIGHT_KEYS, colemak, |RIGHT_KEYS|)
    + SectionLines(Keyed("★", maps.star), STAR_RIGHT_KEYS, colemak, |STAR_RIGHT_KEYS|)
  }

  /** ★゛ gives わ, then the postfix ゛ tables in order. */
  function Postfix(colemak: bool): seq<string>
  {
    var dakutenKey := DakutenKeyOf(colemak);
    ["★" + dakutenKey + "\tわ"]
    + PairLines(DAKUTEN_MAP, dakutenKey) + PairLines(DAKUTEN_TO_HANDAKUTEN_MAP, dakutenKey)
    + PairLines(VOWEL_TO_KOGAKI_MAP, dakutenKey) + PairLines(VU_TO_KOGAKI_MAP, dakutenKey)
  }

  /** The contracted sounds under ☆゛, present only when their table is not
      empty. */
  function Yoon(maps: SlotMaps, colemak: bool): seq<string>
  {
    (if |maps.circleDakuten| > 0 then SectionLines(Keyed("☆゛", maps.circleDakuten), LEFT_KEYS, colemak, |LEFT_KEYS|) else [])
    + (if |maps.starDakuten| > 0 then SectionLines(Keyed("☆゛", maps.starDakuten), YOON_RIGHT_KEYS, colemak, |YOON_RIGHT_KEYS|) else [])
  }

  /** A shift key pressed twice: ☆☆ gives も and ★★ gives ら. */
  function DoubleShift(colemak: bool): seq<string>
  {
    [CircleKeyOf(colemak) + CircleKeyOf(colemak) + "\tも", StarKeyOf(colemak) + StarKeyOf(colemak) + "\tら"]
  }

  function HazkeyLines(conversion: seq<(string, Mapping)>, colemak: bool): seq<string>
  {
    var maps := SlotMapsUpTo(conversion, colemak, |conversion|);
    HazkeyHead(maps, colemak) + Postfix(colemak) + Yoon(maps, colemak) + DoubleShift(colemak)
  }

  /** The postfix block opens with ★゛ → わ and has one line for each
      `DAKUTEN_MAP` entry, in order, right after it. */
  lemma PostfixLayout(colemak: bool, i: nat)
    requires i < |DAKUTEN_MAP|
    ensures |Postfix(colemak)| == 1 + |DAKUTEN_MAP| + |DAKUTEN_TO_HANDAKUTEN_MAP| + |VOWEL_TO_KOGAKI_MAP| + |VU_TO_KOGAKI_MAP|
    ensures Postfix(colemak)[0] == "★" + DakutenKeyOf(colemak) + "\tわ"
    ensures Postfix(colemak)[1 + i] == [DAKUTEN_MAP[i].0] + DakutenKeyOf(colemak) + "\t" + [DAKUTEN_MAP[i].1]
  {
    var d := DakutenKeyOf(colemak);
    assert Postfix(colemak)[1 + i] == PairLines(DAKUTEN_MAP, d)[i];
  }

  /** The table holds the postfix block right after the head, and ends with
      ☆☆ → も and ★★ → ら. */
  lemma HazkeyLinesLayout(conversion: seq<(string, Mapping)>, colemak: bool)
    ensures var lines := HazkeyLines(conversion, colemak);
      var head := |HazkeyHead(SlotMapsUpTo(conversion, colemak, |conversion|), colemak)|;
      && |lines| >= head + |Postfix(colemak)| + 2
      && lines[head..head + |Postfix(colemak)|] == Postfix(colemak)
      && lines[|lines| - 2] == CircleKeyOf(colemak) + CircleKeyOf(colemak) + "\tも"
      && lines[|lines| - 1] == StarKeyOf(colemak) + StarKeyOf(colemak) + "\tら"
  {
    var maps := SlotMapsUpTo(conversion, colemak, |conversion|);
    var head := HazkeyHead(maps, colemak);
    var post := Postfix(colemak);
    var lines := HazkeyLines(conversion, colemak);
    assert lines == head + post + (Yoon(maps, colemak) + DoubleShift(colemak));
    assert lines[|head|..|head| + |post|] == post;
  }

  /** Appending one key list's lines. */
  method AppendSection(lines: seq<string>, section: Section, keys: seq<string>, colemak: bool) returns (result: seq<string>)
    ensures result == lines + SectionLines(section, keys, colemak, |keys|)
  {
    result := lines;
    for i := 0 to |keys|
      invariant result == lines + SectionLines(section, keys, colemak, i)
    {
      result := result + SectionLine(section, keys[i], colemak);
    }
  }

  /** Appending the postfix ゛ lines of one table. */
  method AppendPairs(lines: seq<string>, pairs: seq<(char, char)>, dakutenKey: string) returns (result: seq<string>)
    ensures result == lines + PairLines(pairs, dakutenKey)
  {
    result := lines;
    for i := 0 to |pairs|
      invariant result == lines + PairLines(pairs[..i], dakutenKey)
    {
      assert pairs[..i + 1] == pairs[..i] + [pairs[i]];
      assert PairLines(pairs[..i + 1], dakutenKey) == PairLines(pairs[..i], dakutenKey) + [PairLine(pairs[i], dakutenKey)];
      result := result + [[pairs[i].0] + dakutenKey + "\t" + [pairs[i].1]];
    }
    assert pairs[..|pairs|] == pairs;
  }

  /** The four key-list loops before the postfix block. */
  method AppendHead(maps: SlotMaps, colemak: bool) returns (lines: seq<string>)
    ensures lines == HazkeyHead(maps, colemak)
  {
    var starKey := ConvertKey("d", colemak);
    var circleKey := ConvertKey("k", colemak);
    var dakutenKey := ConvertKey("l", colemak);
    lines := AppendSection([], LeftBase(maps.base, starKey), LEFT_KEYS, colemak);
    lines := AppendSection(lines, Keyed("☆", maps.circle), LEFT_KEYS, colemak);
    lines := AppendSection(lines, RightBase(maps.base, circleKey, dakutenKey), RIGHT_KEYS, colemak);
    lines := AppendSection(lines, Keyed("★", maps.star), STAR_RIGHT_KEYS, colemak);
  }

  /** ★゛ → わ and the four postfix ゛ tables. */
  method AppendPostfix(lines: seq<string>, colemak: bool) returns (result: seq<string>)
    ensures result == lines + Postfix(colemak)
  {
    var dakutenKey := ConvertKey("l", colemak);
    result := lines + ["★" + dakutenKey + "\tわ"];
    result := AppendPairs(result, DAKUTEN_MAP, dakutenKey);
    result := AppendPairs(result, DAKUTEN_TO_HANDAKUTEN_MAP, dakutenKey);
    result := AppendPairs(result, VOWEL_TO_KOGAKI_MAP, dakutenKey);
    result := AppendPairs(result, VU_TO_KOGAKI_MAP, dakutenKey);
  }

  /** The ☆゛ loops, each run only when its table is not empty. */
  method AppendYoon(lines: seq<string>, maps: SlotMaps, colemak: bool) returns (result: seq<string>)
    ensures result == lines + Yoon(maps, colemak)
  {
    result := lines;
    if |maps.circleDakuten| > 0 {
      result := AppendSection(result, Keyed("☆゛", maps.circleDakuten), LEFT_KEYS, colemak);
    }
    if |maps.starDakuten| > 0 {
      result := AppendSection(result, Keyed("☆゛", maps.starDakuten), YOON_RIGHT_KEYS, colemak);
    }
  }

  /** `generate_hazkey_ansi`: the table's lines joined by newlines, with a
      final newline. */
  method GenerateHazkeyAnsi(data: AnalyzerData, colemak: bool) returns (text: string)
    ensures text == Join(HazkeyLines(data.conversion, colemak), "\n") + "\n"
  {
    var starKey := ConvertKey("d", colemak);
    var circleKey := ConvertKey("k", colemak);
    var maps := BuildSlotMaps(data.conversion, colemak);
    var lines := AppendHead(maps, colemak);
    lines := AppendPostfix(lines, colemak);
    lines := AppendYoon(lines, maps, colemak);
    lines := lines + [circleKey + circleKey + "\tも", starKey + starKey + "\tら"];
    text := Join(lines, "\n") + "\n";
  }

  // ---------------------------------------------------------------------------
  // Karabiner-Elements
  // ---------------------------------------------------------------------------

  /** One basic manipulator: the key_code it fires on (with caps lock as an
      optional modifier or not), the key_codes it emits, the value it sets
      `shingetsu_shift` to, and the value it requires of it (if any). */
  datatype Manipulator = Manipulator(from: string, capsLockOptional: bool, to: seq<string>, setShift: nat, condition: Option<nat>)

  /** A rule: a description and its manipulators. */
  datatype Rule = Rule(description: string, manipulators: seq<Manipulator>)

  /** The shift state an entry's shift keys select, after converting them to
      the layout: ★+゛ 3, ☆+゛ 4, ★ 1, ☆ 2, none 0. */
  function KarabinerShiftState(m: Mapping, colemak: bool): Option<nat>
  {
    if |m.shift| == 0 then Some(0)
    else
      var converted := ConvertAll(m.shift, colemak);
      var hasD := ConvertKey("d", colemak) in converted;
      var hasK := ConvertKey("k", colemak) in converted;
      var hasL := ConvertKey("l", colemak) in converted;
      if hasD && hasL then Some(3)
      else if hasK && hasL then Some(4)
      else if hasD then Some(1)
      else if hasK then Some(2)
      else None
  }

  /** The shift state that corresponds to each hazkey table. */
  function SlotState(slot: Slot): nat
  {
    match slot
    case BaseSlot => 0
    case StarSlot => 1
    case CircleSlot => 2
    case StarDakutenSlot => 3
    case CircleDakutenSlot => 4
  }

  /** The two generators agree on shifts: testing converted shift keys
      against converted d, k and l selects the state of the table the hazkey
      generator picks from the unconverted keys. */
  lemma ShiftStateMatchesSlot(m: Mapping, colemak: bool)
    ensures KarabinerShiftState(m, colemak) == (if ShiftSlot(m.shift).Some? then Some(SlotState(ShiftSlot(m.shift).value)) else None)
  {
    ConvertedMembership("d", m.shift, colemak);
    ConvertedMembership("k", m.shift, colemak);
    ConvertedMembership("l", m.shift, colemak);
  }

  /** The key_codes that type a romaji: each letter as itself, '-' as hyphen. */
  function RomajiKeys(romaji: string): (codes: seq<string>)
    ensures |codes| == |romaji|
    ensures forall i :: 0 <= i < |romaji| ==> codes[i] == (if romaji[i] == '-' then "hyphen" else [romaji[i]])
  {
    seq(|romaji|, i requires 0 <= i < |romaji| => if romaji[i] == '-' then "hyphen" else [romaji[i]])
  }

  /** The manipulator for one conversion entry, if it gets one: a single-key
      kana with a romaji entry and a recognised shift set, which types the
      romaji and clears the shift state. */
  function CharManipulator(ch: string, m: Mapping, colemak: bool): Option<Manipulator>
  {
    if |m.keys| == 0 || ch == "゛" || ch == "゜" || SingleAscii(ch) then None
    else match ScriptRomaji(ch)
      case None => None
      case Some(romaji) =>
        match KarabinerShiftState(m, colemak)
        case None => None
        case Some(state) =>
          if |m.keys| == 1 then Some(Manipulator(KeyToKeycode(ConvertKey(m.keys[0], colemak)), true, RomajiKeys(romaji), 0, Some(state)))
          else None
  }

  /** Every emitted manipulator comes from a kana with a romaji entry, types
      that romaji on letter and hyphen keys, and returns to state 0 from one
      of the five states. */
  lemma CharManipulatorFacts(ch: string, m: Mapping, colemak: bool)
    requires CharManipulator(ch, m, colemak).Some?
    ensures ScriptRomaji(ch).Some? && |m.keys| == 1
    ensures var r := CharManipulator(ch, m, colemak).value;
      && r.to == RomajiKeys(ScriptRomaji(ch).value) && r.setShift == 0
      && r.condition.Some? && r.condition.value <= 4
      && r.from == KeyToKeycode(ConvertKey(m.keys[0], colemak))
      && forall i :: 0 <= i < |r.to| ==> r.to[i] == "hyphen" || (|r.to[i]| == 1 && 'a' <= r.to[i][0] <= 'z')
  {
  }

  /** The manipulators of the first `n` entries, in order. */
  function CharManipulators(conversion: seq<(string, Mapping)>, colemak: bool, n: nat): (ms: seq<Manipulator>)
    requires n <= |conversion|
    ensures |ms| <= n
  {
    if n == 0 then []
    else
      var prev := CharManipulators(conversion, colemak, n - 1);
      match CharManipulator(conversion[n - 1].0, conversion[n - 1].1, colemak)
      case None => prev
      case Some(r) => prev + [r]
  }

  /** A manipulator is there exactly when some entry produces it; in
      particular a kana without romaji adds nothing. */
  lemma {:induction false} CharManipulatorsMembers(conversion: seq<(string, Mapping)>, colemak: bool, n: nat, r: Manipulator)
    requires n <= |conversion|
    ensures r in CharManipulators(conversion, colemak, n) <==>
      exists i :: 0 <= i < n && CharManipulator(conversion[i].0, conversion[i].1, colemak) == Some(r)
  {
    if n > 0 {
      CharManipulatorsMembers(conversion, colemak, n - 1, r);
    }
  }

  /** The four shift manipulators: ★ sets 1 and ☆ sets 2 from state 0; ゛
      sets 3 from 1 and 4 from 2. */
  function ShiftManipulators(colemak: bool): seq<Manipulator>
  {
    var d := KeyToKeycode(ConvertKey("d", colemak));
    var k := KeyToKeycode(ConvertKey("k", colemak));
    var l := KeyToKeycode(ConvertKey("l", colemak));
    [Manipulator(d, true, [], 1, Some(0)), Manipulator(k, true, [], 2, Some(0)),
     Manipulator(l, true, [], 3, Some(1)), Manipulator(l, true, [], 4, Some(2))]
  }

  /** Escape types escape and resets the state, whatever it is. */
  const ESCAPE_RESET: Manipulator := Manipulator("escape", false, ["escape"], 0, None)

  function KarabinerManipulators(conversion: seq<(string, Mapping)>, colemak: bool): seq<Manipulator>
  {
    ShiftManipulators(colemak) + CharManipulators(conversion, colemak, |conversion|) + [ESCAPE_RESET]
  }

  function KarabinerDescription(name: Option<string>, colemak: bool): string
  {
    (if name.Some? then name.value else "新月配列") + " - 前置/後置シフト (" + (if colemak then "Colemak" else "QWERTY") + ")"
  }

  /** The shift keys and their key_codes, which are their names. */
  lemma ShiftKeys(colemak: bool)
    ensures StarKeyOf(colemak) == (if colemak then "s" else "d") == KeyToKeycode(StarKeyOf(colemak))
    ensures CircleKeyOf(colemak) == (if colemak then "e" else "k") == KeyToKeycode(CircleKeyOf(colemak))
    ensures DakutenKeyOf(colemak) == (if colemak then "i" else "l") == KeyToKeycode(DakutenKeyOf(colemak))
  {
    assert "d"[0] == 'd' && "k"[0] == 'k' && "l"[0] == 'l';
  }

  /** A manipulator applies to a key in a state when its key_code matches
      and its condition, if any, holds. */
  predicate Applies(r: Manipulator, state: nat, code: string)
  {
    r.from == code && (r.condition.None? || r.condition.value == state)
  }

  /** The manipulator Karabiner applies to a key in a state: the first from
      position `i` on that applies. */
  function FireFrom(ms: seq<Manipulator>, state: nat, code: string, i: nat): (r: Option<Manipulator>)
    requires i <= |ms|
    ensures r.Some? ==> r.value in ms && Applies(r.value, state, code)
    decreases |ms| - i
  {
    if i == |ms| then None
    else if Applies(ms[i], state, code) then Some(ms[i])
    else FireFrom(ms, state, code, i + 1)
  }

  function Fire(ms: seq<Manipulator>, state: nat, code: string): (r: Option<Manipulator>)
    ensures r.Some? ==> r.value in ms && Applies(r.value, state, code)
  {
    FireFrom(ms, state, code, 0)
  }

  /** The first four manipulators make ★ and ☆ prefix shifts and ゛ a
      second-stage shift: from state 0 the ★ key enters 1 and the ☆ key 2, and
      the ゛ key moves 1 to 3 and 2 to 4. */
  lemma KarabinerShiftTransitions(conversion: seq<(string, Mapping)>, colemak: bool)
    ensures var ms := KarabinerManipulators(conversion, colemak);
      && Fire(ms, 0, KeyToKeycode(StarKeyOf(colemak))) == Some(ms[0]) && ms[0].setShift == 1
      && Fire(ms, 0, KeyToKeycode(CircleKeyOf(colemak))) == Some(ms[1]) && ms[1].setShift == 2
      && Fire(ms, 1, KeyToKeycode(DakutenKeyOf(colemak))) == Some(ms[2]) && ms[2].setShift == 3
      && Fire(ms, 2, KeyToKeycode(DakutenKeyOf(colemak))) == Some(ms[3]) && ms[3].setShift == 4
  {
    ShiftKeys(colemak);
    FireThroughShifts(colemak, CharManipulators(conversion, colemak, |conversion|) + [ESCAPE_RESET]);
    assert KarabinerManipulators(conversion, colemak) == ShiftManipulators(colemak) + (CharManipulators(conversion, colemak, |conversion|) + [ESCAPE_RESET]);
  }

  lemma FireThroughShifts(colemak: bool, rest: seq<Manipulator>)
    ensures var ms := ShiftManipulators(colemak) + rest;
      var d := if colemak then "s" else "d";
      var k := if colemak then "e" else "k";
      var l := if colemak then "i" else "l";
      && Fire(ms, 0, d) == Some(ms[0]) && Fire(ms, 0, k) == Some(ms[1])
      && Fire(ms, 1, l) == Some(ms[2]) && Fire(ms, 2, l) == Some(ms[3])
  {
    ShiftKeys(colemak);
    var ms := ShiftManipulators(colemak) + rest;
    var k := if colemak then "e" else "k";
    var l := if colemak then "i" else "l";
    assert FireFrom(ms, 0, k, 0) == FireFrom(ms, 0, k, 1) == Some(ms[1]);
    assert FireFrom(ms, 1, l, 0) == FireFrom(ms, 1, l, 1) == FireFrom(ms, 1, l, 2) == Some(ms[2]);
    assert FireFrom(ms, 2, l, 0) == FireFrom(ms, 2, l, 1) == FireFrom(ms, 2, l, 2)
      == FireFrom(ms, 2, l, 3) == Some(ms[3]);
  }

  /** The last manipulator resets on escape; when no entry is typed on an
      escape key, escape reaches it from every state. */
  lemma KarabinerEscapeResets(conversion: seq<(string, Mapping)>, colemak: bool, state: nat)
    requires forall i :: 0 <= i < |conversion| ==> forall j :: 0 <= j < |conversion[i].1.keys| ==>
      KeyToKeycode(ConvertKey(conversion[i].1.keys[j], colemak)) != "escape"
    ensures var ms := KarabinerManipulators(conversion, colemak);
      ms[|ms| - 1] == ESCAPE_RESET && Fire(ms, state, "escape") == Some(ESCAPE_RESET)
  {
    var chars := CharManipulators(conversion, colemak, |conversion|);
    forall r | r in chars
      ensures r.from != "escape"
    {
      CharManipulatorsMembers(conversion, colemak, |conversion|, r);
      var i :| 0 <= i < |conversion| && CharManipulator(conversion[i].0, conversion[i].1, colemak) == Some(r);
      CharManipulatorFacts(conversion[i].0, conversion[i].1, colemak);
    }
    ShiftKeys(colemak);
    var ms := KarabinerManipulators(conversion, colemak);
    forall k | 0 <= k < |ms| - 1
      ensures ms[k].from != "escape"
    {
      if k >= 4 {
        assert ms[k] == chars[k - 4];
      }
    }
    FireSkips(ms, state, "escape", 0, |ms| - 1);
  }

  /** Manipulators on other keys are passed over. */
  lemma {:induction false} FireSkips(ms: seq<Manipulator>, state: nat, code: string, i: nat, j: nat)
    requires i <= j <= |ms|
    requires forall k :: i <= k < j ==> ms[k].from != code
    ensures FireFrom(ms, state, code, i) == FireFrom(ms, state, code, j)
    decreases j - i
  {
    if i < j {
      FireSkips(ms, state, code, i + 1, j);
    }
  }

  /** `generate_karabiner_json`: one rule holding the shift manipulators, one
      manipulator per typable entry and the escape reset. */
  method GenerateKarabinerJson(data: AnalyzerData, colemak: bool) returns (rules: seq<Rule>)
    ensures rules == [Rule(KarabinerDescription(data.name, colemak), KarabinerManipulators(data.conversion, colemak))]
  {
    var ms := ShiftManipulators(colemak);
    ghost var shifts := ms;
    for i := 0 to |data.conversion|
      invariant ms == shifts + CharManipulators(data.conversion, colemak, i)
    {
      var (ch, m) := data.conversion[i];
      var r := CharManipulator(ch, m, colemak);
      if r.Some? {
        ms := ms + [r.value];
      }
    }
    ms := ms + [ESCAPE_RESET];
    var name := if data.name.Some? then data.name.value else "新月配列";
    rules := [Rule(name + " - 前置/後置シフト (" + (if colemak then "Colemak" else "QWERTY") + ")", ms)];
  }
}
