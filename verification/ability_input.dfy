/**
 * Reading ability scores from a free-text answer (`parseAbilityInput`) and
 * the standard array (`generateStandardAbilityScores`), shared word for word
 * by the engine's character-creation module and the chat service's copy.
 *
 * The answer is trimmed and lower-cased. A keyword gives the standard array.
 * Otherwise every match of the pattern `(str|dex|con|int|wis|cha)\s*[:=]?\s*(\d{1,2})`
 * is collected; if there is one and all six abilities are named, those
 * scores win. Otherwise exactly six runs of digits are read in the order
 * STR..CHA. Every score is clamped to [1, 30].
 */
module AbilityInput {
  import opened Wrappers
  import opened Text
  import opened Core

  const STANDARD_ARRAY: seq<int> := [15, 14, 13, 12, 10, 8]
  const MIN_SCORE := 1
  const MAX_SCORE := 30
  const KEYWORDS: seq<string> := ["auto", "standard", "default", "yes"]

  // ----- the standard array -----

  /**
   * The record `generateStandardAbilityScores(order)` fills: the ability at
   * position `i` gets `STANDARD_ARRAY[min(i, 5)]`; a repeated ability keeps
   * the value of its last position.
   */
  function StandardScores(order: seq<Ability>): (m: Scores)
    ensures forall a :: a in m <==> a in order
    ensures forall a :: a in m ==> m[a] in STANDARD_ARRAY
  {
    if order == [] then map[]
    else
      var i := |order| - 1;
      assert order == order[..i] + [order[i]];
      StandardScores(order[..i])[order[i] := STANDARD_ARRAY[Min(i, |STANDARD_ARRAY| - 1)]]
  }

  /** The `forEach` that fills the record, one ability at a time. */
  method GenerateStandardAbilityScores(order: seq<Ability>) returns (result: Scores)
    ensures result == StandardScores(order)
  {
    result := map[];
    for i := 0 to |order|
      invariant result == StandardScores(order[..i])
    {
      assert order[..i + 1][..i] == order[..i];
      result := result[order[i] := STANDARD_ARRAY[Min(i, |STANDARD_ARRAY| - 1)]];
    }
    assert order[..|order|] == order;
  }

  /** With no repeats in `order`, position `i` gets `STANDARD_ARRAY[min(i, 5)]`. */
  lemma {:induction false} StandardScoresAt(order: seq<Ability>, i: nat)
    requires forall j, k :: 0 <= j < k < |order| ==> order[j] != order[k]
    requires i < |order|
    ensures StandardScores(order)[order[i]] == STANDARD_ARRAY[Min(i, |STANDARD_ARRAY| - 1)]
  {
    var n := |order| - 1;
    if i < n {
      StandardScoresAt(order[..n], i);
    }
  }

  /** The default order gives STR 15, DEX 14, CON 13, INT 12, WIS 10, CHA 8. */
  lemma StandardDefault()
    ensures StandardScores(ABILITY_ORDER)
         == map[STR := 15, DEX := 14, CON := 13, INT := 12, WIS := 10, CHA := 8]
  {
    var o := ABILITY_ORDER;
    assert o[..1] == [STR] && o[..1][..0] == [];
    assert o[..2][..1] == o[..1] && o[..2][1] == DEX;
    assert o[..3][..2] == o[..2] && o[..3][2] == CON;
    assert o[..4][..3] == o[..3] && o[..4][3] == INT;
    assert o[..5][..4] == o[..4] && o[..5][4] == WIS;
    assert o[..5] == o[..|o| - 1] && o[5] == CHA;
    assert StandardScores(o[..1]) == map[STR := 15];
    assert StandardScores(o[..2]) == map[STR := 15, DEX := 14];
    assert StandardScores(o[..3]) == map[STR := 15, DEX := 14, CON := 13];
    assert StandardScores(o[..4]) == map[STR := 15, DEX := 14, CON := 13, INT := 12];
    assert StandardScores(o[..5]) == map[STR := 15, DEX := 14, CON := 13, INT := 12, WIS := 10];
  }

  // ----- explicit ability tags -----

  datatype Tag = Tag(ability: Ability, value: nat)

  /** A tag found at the start of a text, and how many characters it spans. */
  datatype TagMatch = TagMatch(tag: Tag, length: nat)

  function KeyName(a: Ability): string {
    match a
    case STR => "str"
    case DEX => "dex"
    case CON => "con"
    case INT => "int"
    case WIS => "wis"
    case CHA => "cha"
  }

  /** The ability whose key starts `s`, if any. */
  function KeyAt(s: string): (r: Option<Ability>)
    ensures r.Some? ==> |s| >= 3 && s[..3] == KeyName(r.value)
    ensures r.None? ==> forall a :: !(KeyName(a) <= s)
  {
    if |s| < 3 then None
    else
      var k := s[..3];
      if k == "str" then Some(STR)
      else if k == "dex" then Some(DEX)
      else if k == "con" then Some(CON)
      else if k == "int" then Some(INT)
      else if k == "wis" then Some(WIS)
      else if k == "cha" then Some(CHA)
      else None
  }

  /** A value found after a key, and how many characters it spans. */
  datatype ValueMatch = ValueMatch(value: nat, length: nat)

  /**
   * What the tag pattern must find after the key: white space, an optional
   * ':' or '=', white space, then one or two digits (as many as there are).
   * This part of the pattern has one way to match, so no backtracking is
   * needed.
   */
  function TagValue(s: string): (r: Option<ValueMatch>)
    ensures r.Some? ==> 0 < r.value.length <= |s| && r.value.value < 100
  {
    var s4 := SkipSpaces(SkipSeparator(SkipSpaces(s)));
    match LeadingDigits(s4)
    case None => None
    case Some(v) => Some(ValueMatch(v.value, |s| - |s4| + v.length))
  }

  /** `[:=]?`: `s` after a leading ':' or '=', if there is one. */
  function SkipSeparator(s: string): (r: string)
    ensures |r| <= |s|
  {
    if s != [] && (s[0] == ':' || s[0] == '=') then s[1..] else s
  }

  /** `\s*`: `s` after its leading white space. */
  function SkipSpaces(s: string): (r: string)
    ensures |r| <= |s|
  {
    s[SpacePrefix(s)..]
  }

  /** Nothing is skipped before a character that is not white space. */
  lemma SkipNone(s: string)
    requires s == [] || !IsSpace(s[0])
    ensures SkipSpaces(s) == s
  {
    assert SpacePrefix(s) == 0;
  }

  /** `\d{1,2}` at the start of `s`, greedy. */
  function LeadingDigits(s: string): (r: Option<ValueMatch>)
    ensures r.Some? ==> 0 < r.value.length <= |s| && r.value.value < 100
  {
    var n := if s != [] && IsDigit(s[0]) then (if |s| > 1 && IsDigit(s[1]) then 2 else 1) else 0;
    if n == 0 then None
    else
      TwoDigitsBelow100(s[..n]);
      Some(ValueMatch(DecimalValue(s[..n]), n))
  }

  /** One or two digits followed by a space or the end are read whole. */
  lemma LeadingDigitsOf(digits: string, rest: string)
    requires AllDigits(digits) && 1 <= |digits| <= 2
    requires rest == [] || rest[0] == ' '
    ensures LeadingDigits(digits + rest) == Some(ValueMatch(DecimalValue(digits), |digits|))
  {
    var s := digits + rest;
    assert s[0] == digits[0];
    if |digits| == 2 {
      assert s[1] == digits[1];
    } else if |s| > 1 {
      assert s[1] == rest[0];
    }
    assert s[..|digits|] == digits;
  }

  lemma TwoDigitsBelow100(ds: string)
    requires AllDigits(ds) && |ds| <= 2
    ensures DecimalValue(ds) < 100
  {
    if |ds| == 2 {
      assert ds[..1][..0] == [];
    }
  }

  /** A match of the tag pattern at the start of `s`. */
  function TagPrefix(s: string): (r: Option<TagMatch>)
    ensures r.Some? ==> 0 < r.value.length <= |s| && r.value.tag.value < 100
  {
    match KeyAt(s)
    case None => None
    case Some(a) =>
      match TagValue(s[3..])
      case None => None
      case Some(v) => Some(TagMatch(Tag(a, v.value), 3 + v.length))
  }

  /**
   * `matchAll` of the tag pattern: try a match at the current position; after
   * a match continue where it ended, otherwise one character further.
   */
  function TagMatches(s: string): (r: seq<Tag>)
    ensures forall i :: 0 <= i < |r| ==> r[i].value < 100
    decreases |s|
  {
    if s == [] then []
    else
      match TagPrefix(s)
      case Some(m) => [m.tag] + TagMatches(s[m.length..])
      case None => TagMatches(s[1..])
  }

  /** The set of abilities the tags name. */
  function TaggedAbilities(tags: seq<Tag>): set<Ability> {
    if tags == [] then {} else TaggedAbilities(tags[..|tags| - 1]) + {tags[|tags| - 1].ability}
  }

  /** The scores the tags name, each clamped; a later tag for the same ability overwrites. */
  function TagMap(tags: seq<Tag>): (m: Scores)
    ensures m.Keys == TaggedAbilities(tags)
    ensures forall a :: a in m ==> MIN_SCORE <= m[a] <= MAX_SCORE
  {
    if tags == [] then map[]
    else
      var i := |tags| - 1;
      TagMap(tags[..i])[tags[i].ability := Clamp(Some(tags[i].value), MIN_SCORE, MAX_SCORE)]
  }

  /** An ability is tagged exactly when some tag names it. */
  lemma {:induction false} TaggedAbilitiesAt(tags: seq<Tag>, a: Ability)
    ensures a in TaggedAbilities(tags) <==> exists i :: 0 <= i < |tags| && tags[i].ability == a
  {
    if tags != [] {
      var n := |tags| - 1;
      TaggedAbilitiesAt(tags[..n], a);
      if a in TaggedAbilities(tags[..n]) {
        var i :| 0 <= i < n && tags[..n][i].ability == a;
        assert tags[i].ability == a;
      }
      if exists i :: 0 <= i < |tags| && tags[i].ability == a {
        var i :| 0 <= i < |tags| && tags[i].ability == a;
        if i < n { assert tags[..n][i].ability == a; }
      }
    }
  }

  /** The score of a tagged ability is its last tag's value, clamped. */
  lemma {:induction false} TagMapLast(tags: seq<Tag>, i: nat)
    requires i < |tags|
    requires forall j :: i < j < |tags| ==> tags[j].ability != tags[i].ability
    ensures tags[i].ability in TagMap(tags)
    ensures TagMap(tags)[tags[i].ability] == Clamp(Some(tags[i].value), MIN_SCORE, MAX_SCORE)
  {
    var n := |tags| - 1;
    if i < n {
      TagMapLast(tags[..n], i);
    }
  }

  // ----- runs of digits -----

  /**
   * The non-empty pieces of `s.split(/[^0-9]+/)`, trimmed: exactly the maximal
   * runs of digits, in order.
   */
  function DigitTokens(s: string): (r: seq<string>)
    ensures forall i :: 0 <= i < |r| ==> r[i] != [] && AllDigits(r[i])
    decreases |s|
  {
    if s == [] then []
    else if IsDigit(s[0]) then
      var n := DigitPrefix(s);
      DigitPrefixDigits(s);
      [s[..n]] + DigitTokens(s[n..])
    else DigitTokens(s[1..])
  }

  /** Six numbers given in the order STR, DEX, CON, INT, WIS, CHA, each clamped. */
  function PositionalScores(tokens: seq<string>): (m: Scores)
    requires |tokens| == |ABILITY_ORDER|
    ensures FullScores(m) && forall a :: MIN_SCORE <= m[a] <= MAX_SCORE
  {
    var m := map a | a in ABILITY_ORDER :: Clamp(ParseInt(tokens[AbilityIndex(a)]), MIN_SCORE, MAX_SCORE);
    forall a: Ability ensures a in m && MIN_SCORE <= m[a] <= MAX_SCORE {
      assert ABILITY_ORDER[AbilityIndex(a)] == a;
    }
    m
  }

  // ----- the parser -----

  /**
   * `parseAbilityInput`: `None` is the source's `null` (the answer is not
   * understood). Whatever it accepts names all six abilities with scores in
   * [1, 30].
   */
  function ParseAbilityInput(answer: string): (r: Option<Scores>)
    ensures r.Some? ==> FullScores(r.value) && forall a :: MIN_SCORE <= r.value[a] <= MAX_SCORE
    ensures AllSpace(answer) ==> r.None?
  {
    TrimBlank(answer);
    var normalized := ToLower(Trim(answer));
    if normalized == [] then None
    else if normalized in KEYWORDS then
      var m := StandardScores(ABILITY_ORDER);
      assert FullScores(m) by {
        forall a: Ability ensures a in m { assert ABILITY_ORDER[AbilityIndex(a)] == a; }
      }
      Some(m)
    else
      var tags := TagMatches(normalized);
      var explicit := TagMap(tags);
      if |tags| > 0 && FullScores(explicit) then Some(explicit)
      else
        var tokens := DigitTokens(normalized);
        if |tokens| == |ABILITY_ORDER| then Some(PositionalScores(tokens)) else None
  }

  // ----- what the parser accepts -----

  /** A keyword in any letter case, surrounded by white space, gives the standard array. */
  lemma KeywordAnyCase(front: string, word: string, back: string)
    requires AllSpace(front) && AllSpace(back)
    requires ToLower(word) in KEYWORDS
    ensures ParseAbilityInput(front + word + back) == Some(StandardScores(ABILITY_ORDER))
  {
    var lw := ToLower(word);
    ToLowerAt(word);
    assert lw[0] != ' ' && lw[|lw| - 1] != ' ';
    assert !IsSpace(word[0]) && !IsSpace(word[|word| - 1]) by {
      assert lw[0] == LowerChar(word[0]) && lw[|lw| - 1] == LowerChar(word[|word| - 1]);
      assert 'a' <= lw[0] <= 'z' && 'a' <= lw[|lw| - 1] <= 'z';
    }
    TrimPadded(front, word, back);
  }

  /** No capital letter anywhere in `s`. */
  predicate NoUpper(s: string) {
    forall i :: 0 <= i < |s| ==> !('A' <= s[i] <= 'Z')
  }

  /** Lower-casing leaves a text without capital letters as it is. */
  lemma LowerUnchanged(s: string)
    requires NoUpper(s)
    ensures ToLower(s) == s
  {
  }

  /** The canonical text of one tag: key, ':' and the value in decimal. */
  function TagWord(t: Tag): string {
    KeyName(t.ability) + ":" + NatToDecimal(t.value)
  }

  /** Tags written one after another, separated by single spaces. */
  function TagText(tags: seq<Tag>): string
    requires tags != []
  {
    if |tags| == 1 then TagWord(tags[0]) else TagWord(tags[0]) + " " + TagText(tags[1..])
  }

  lemma KeyAtWord(a: Ability, rest: string)
    ensures KeyAt(KeyName(a) + rest) == Some(a)
  {
    assert (KeyName(a) + rest)[..3] == KeyName(a);
  }

  /** No key starts with anything but a lower-case letter. */
  lemma NoKeyAt(s: string)
    requires s != [] && !('a' <= s[0] <= 'z')
    ensures KeyAt(s) == None && TagPrefix(s) == None
  {
    if |s| >= 3 {
      assert s[..3][0] == s[0];
    }
  }

  /** After a key, ':' and one or two digits followed by a space or the end are read whole. */
  lemma TagValueOfDigits(digits: string, rest: string)
    requires AllDigits(digits) && 1 <= |digits| <= 2
    requires rest == [] || rest[0] == ' '
    ensures TagValue(":" + (digits + rest)) == Some(ValueMatch(DecimalValue(digits), 1 + |digits|))
  {
    var t := digits + rest;
    var u := ":" + t;
    var v := ValueMatch(DecimalValue(digits), |digits|);
    assert SkipSpaces(SkipSeparator(SkipSpaces(u))) == t by {
      assert t[0] == digits[0];
      NonSpaceChar(t[0]);
      SkipNone(u);
      assert u[1..] == t;
      SkipNone(t);
    }
    assert LeadingDigits(t) == Some(v) by {
      LeadingDigitsGreedy(digits, rest);
    }
    TagValueOf(u, t, v);
  }

  /** The tag pattern matches a tag word exactly, when the value has at most two digits. */
  lemma TagPrefixOfWord(t: Tag, rest: string)
    requires t.value < 100
    requires rest == [] || rest[0] == ' '
    ensures TagPrefix(TagWord(t) + rest) == Some(TagMatch(t, |TagWord(t)|))
  {
    var key := KeyName(t.ability);
    var digits := NatToDecimal(t.value);
    var s := TagWord(t) + rest;
    assert s == key + (":" + (digits + rest));
    KeyAtWord(t.ability, ":" + (digits + rest));
    assert s[3..] == ":" + (digits + rest);
    assert |digits| <= 2 by {
      if t.value >= 10 { assert NatToDecimal(t.value / 10) == [DigitChar(t.value / 10)]; }
    }
    TagValueOfDigits(digits, rest);
    DecimalRoundTrip(t.value);
  }

  /** A tag word followed by a space and more text: the tag is matched, then the matching goes on after the space. */
  lemma TagMatchesStep(t: Tag, rest: string)
    requires t.value < 100
    ensures TagMatches(TagWord(t) + " " + rest) == [t] + TagMatches(rest)
  {
    var w := TagWord(t);
    var s := w + " " + rest;
    assert s == w + (" " + rest);
    TagPrefixOfWord(t, " " + rest);
    assert s[|w|..] == " " + rest;
    NoKeyAt(" " + rest);
    assert (" " + rest)[1..] == rest;
  }

  /** A lone tag word is matched as that one tag. */
  lemma TagMatchesOfWord(t: Tag)
    requires t.value < 100
    ensures TagMatches(TagWord(t)) == [t]
  {
    var w := TagWord(t);
    TagPrefixOfWord(t, []);
    assert w + [] == w;
    assert w[|w|..] == [];
  }

  /** A tag text is not taken apart in any other way: the matches are its tags. */
  lemma {:induction false} TagMatchesOfText(tags: seq<Tag>)
    requires tags != []
    requires forall i :: 0 <= i < |tags| ==> tags[i].value < 100
    ensures TagMatches(TagText(tags)) == tags
  {
    if |tags| == 1 {
      TagMatchesOfWord(tags[0]);
    } else {
      var rest := tags[1..];
      TagMatchesStep(tags[0], TagText(rest));
      assert forall i :: 0 <= i < |rest| ==> rest[i].value < 100 by {
        forall i | 0 <= i < |rest| ensures rest[i].value < 100 { assert rest[i] == tags[i + 1]; }
      }
      TagMatchesOfText(rest);
      assert tags == [tags[0]] + rest;
    }
  }

  lemma TagWordShape(t: Tag)
    ensures var w := TagWord(t); |w| > 3 && 'a' <= w[0] <= 'z' && IsDigit(w[|w| - 1]) && NoUpper(w)
  {
    var key := KeyName(t.ability);
    var digits := NatToDecimal(t.value);
    var w := TagWord(t);
    assert forall i :: 0 <= i < |key| ==> 'a' <= key[i] <= 'z';
    assert w[|w| - 1] == digits[|digits| - 1];
    forall i | 0 <= i < |w| ensures !('A' <= w[i] <= 'Z') {
      if i < 3 { assert w[i] == key[i]; }
      else if i > 3 { assert w[i] == digits[i - 4]; }
    }
  }

  /** A text starting with a key names that key's ability. */
  lemma KeyAtPrefix(t: string, a: Ability)
    requires |t| >= 3 && t[..3] == KeyName(a)
    ensures KeyAt(t) == Some(a)
  {
  }

  /** A tag text is longer than a key and starts with its first tag's key. */
  lemma TagTextStart(tags: seq<Tag>)
    requires tags != []
    ensures var t := TagText(tags); |t| > 3 && t[..3] == KeyName(tags[0].ability)
  {
    var a := tags[0].ability;
    var w := TagWord(tags[0]);
    var t := TagText(tags);
    assert w == KeyName(a) + (":" + NatToDecimal(tags[0].value));
    assert w[..3] == KeyName(a);
    if |tags| > 1 {
      assert t == w + (" " + TagText(tags[1..]));
      assert t[..3] == w[..3];
    }
  }

  /** A tag text starts with the key of its first tag. */
  lemma TagTextKey(tags: seq<Tag>)
    requires tags != []
    ensures var t := TagText(tags); |t| > 3 && KeyAt(t) == Some(tags[0].ability)
  {
    TagTextStart(tags);
    KeyAtPrefix(TagText(tags), tags[0].ability);
  }

  /** Two texts without capitals joined by a space have no capitals. */
  lemma NoUpperJoin(w: string, rest: string)
    requires NoUpper(w) && NoUpper(rest)
    ensures NoUpper(w + " " + rest)
  {
    var t := w + " " + rest;
    forall i | 0 <= i < |t| ensures !('A' <= t[i] <= 'Z') {
      if i < |w| { assert t[i] == w[i]; }
      else if i > |w| { assert t[i] == rest[i - |w| - 1]; }
    }
  }

  /** A tag text ends with a digit and has no capitals. */
  lemma {:induction false} TagTextShape(tags: seq<Tag>)
    requires tags != []
    ensures var t := TagText(tags); |t| > 0 && 'a' <= t[0] <= 'z' && IsDigit(t[|t| - 1]) && NoUpper(t)
  {
    var w := TagWord(tags[0]);
    TagWordShape(tags[0]);
    if |tags| > 1 {
      var rest := TagText(tags[1..]);
      TagTextShape(tags[1..]);
      var t := w + " " + rest;
      assert t[0] == w[0] && t[|t| - 1] == rest[|rest| - 1];
      NoUpperJoin(w, rest);
    }
  }

  /** Trimming and lower-casing leave a tag text as it is. */
  lemma TagTextNormal(tags: seq<Tag>)
    requires tags != []
    ensures ToLower(Trim(TagText(tags))) == TagText(tags)
  {
    var t := TagText(tags);
    TagTextShape(tags);
    assert Tight(t);
    TrimTight(t);
    LowerUnchanged(t);
  }

  lemma KeywordsHaveNoKey()
    ensures forall k :: k in KEYWORDS ==> KeyAt(k) == None
  {
    assert "auto"[..3] == "aut" && "standard"[..3] == "sta";
    assert "default"[..3] == "def" && "yes"[..3] == "yes";
  }

  /**
   * A normalized answer that is no keyword, whose tags are `tags` and name
   * every ability, is read as those tags' scores.
   */
  lemma ParseOfTags(t: string, tags: seq<Tag>)
    requires ToLower(Trim(t)) == t && t != [] && t !in KEYWORDS
    requires TagMatches(t) == tags && tags != []
    requires FullScores(TagMap(tags))
    ensures ParseAbilityInput(t) == Some(TagMap(tags))
  {
  }

  /** A tag text is no keyword. */
  lemma TagTextNoKeyword(tags: seq<Tag>)
    requires tags != []
    ensures TagText(tags) !in KEYWORDS
  {
    TagTextKey(tags);
    KeywordsHaveNoKey();
  }

  /** Six tags, one per ability in the order STR..CHA. */
  function SixTags(v: seq<nat>): (tags: seq<Tag>)
    requires |v| == |ABILITY_ORDER|
    ensures |tags| == |ABILITY_ORDER|
  {
    [Tag(STR, v[0]), Tag(DEX, v[1]), Tag(CON, v[2]), Tag(INT, v[3]), Tag(WIS, v[4]), Tag(CHA, v[5])]
  }

  function Clamped(v: nat): int {
    Clamp(Some(v), MIN_SCORE, MAX_SCORE)
  }

  /** The scores six values give STR..CHA, each clamped to [1, 30]. */
  function InOrder(v: seq<nat>): (m: Scores)
    requires |v| == |ABILITY_ORDER|
    ensures FullScores(m) && forall a :: m[a] == Clamped(v[AbilityIndex(a)])
  {
    var m := map[STR := Clamped(v[0]), DEX := Clamped(v[1]), CON := Clamped(v[2]),
                 INT := Clamped(v[3]), WIS := Clamped(v[4]), CHA := Clamped(v[5])];
    forall a: Ability ensures a in m && m[a] == Clamped(v[AbilityIndex(a)]) {
      assert a.STR? || a.DEX? || a.CON? || a.INT? || a.WIS? || a.CHA?;
    }
    m
  }

  lemma SixTagsMap(v: seq<nat>)
    requires |v| == |ABILITY_ORDER|
    ensures TagMap(SixTags(v)) == InOrder(v)
  {
    var t := SixTags(v);
    assert t[..1] == [Tag(STR, v[0])] && t[..1][..0] == [];
    assert t[..2][..1] == t[..1] && t[..2][1] == Tag(DEX, v[1]);
    assert t[..3][..2] == t[..2] && t[..3][2] == Tag(CON, v[2]);
    assert t[..4][..3] == t[..3] && t[..4][3] == Tag(INT, v[3]);
    assert t[..5][..4] == t[..4] && t[..5][4] == Tag(WIS, v[4]);
    assert t[..|t| - 1] == t[..5] && t[5] == Tag(CHA, v[5]);
    assert TagMap(t[..1]) == map[STR := Clamped(v[0])];
    assert TagMap(t[..2]) == map[STR := Clamped(v[0]), DEX := Clamped(v[1])];
    assert TagMap(t[..3]) == map[STR := Clamped(v[0]), DEX := Clamped(v[1]), CON := Clamped(v[2])];
    assert TagMap(t[..4]) == map[STR := Clamped(v[0]), DEX := Clamped(v[1]), CON := Clamped(v[2]),
                                 INT := Clamped(v[3])];
    assert TagMap(t[..5]) == map[STR := Clamped(v[0]), DEX := Clamped(v[1]), CON := Clamped(v[2]),
                                 INT := Clamped(v[3]), WIS := Clamped(v[4])];
  }

  /** The six tags of `SixTags` are what the tag pattern finds in their text. */
  lemma SixTagsMatched(v: seq<nat>)
    requires |v| == |ABILITY_ORDER| && forall i :: 0 <= i < |v| ==> v[i] < 100
    ensures TagMatches(TagText(SixTags(v))) == SixTags(v)
  {
    TagMatchesOfText(SixTags(v));
  }

  /**
   * "str:v0 dex:v1 con:v2 int:v3 wis:v4 cha:v5" with values below 100 is read
   * as those values, each clamped to [1, 30].
   */
  lemma ExplicitTagsParse(v: seq<nat>)
    requires |v| == |ABILITY_ORDER| && forall i :: 0 <= i < |v| ==> v[i] < 100
    ensures ParseAbilityInput(TagText(SixTags(v))) == Some(InOrder(v))
  {
    var tags := SixTags(v);
    TagTextNormal(tags);
    TagTextNoKeyword(tags);
    SixTagsMatched(v);
    SixTagsMap(v);
    ParseOfTags(TagText(tags), tags);
  }

  // ----- the tag pattern, described by its matches -----

  /**
   * The parts of one match of `(str|dex|con|int|wis|cha)\s*[:=]?\s*(\d{1,2})`:
   * the key, white space, an optional ':' or '=', white space, the digits.
   */
  datatype TagParts = TagParts(ability: Ability, gap1: string, sep: string, gap2: string, digits: string)

  predicate WellFormedParts(p: TagParts) {
    && AllSpace(p.gap1)
    && (p.sep == [] || p.sep == ":" || p.sep == "=")
    && AllSpace(p.gap2)
    && AllDigits(p.digits) && 1 <= |p.digits| <= 2
  }

  /** The text a match spans after the key. */
  function AfterKey(p: TagParts): string {
    p.gap1 + p.sep + p.gap2 + p.digits
  }

  /** The text after the key, followed by more text, part by part. */
  lemma AfterKeyThen(p: TagParts, rest: string)
    ensures AfterKey(p) + rest == p.gap1 + (p.sep + (p.gap2 + (p.digits + rest)))
  {
  }

  /** The text a match spans. */
  function PartsText(p: TagParts): string {
    KeyName(p.ability) + AfterKey(p)
  }

  /** The tag a match names and the number of characters it spans. */
  function PartsMatch(p: TagParts): TagMatch
    requires WellFormedParts(p)
  {
    TagMatch(Tag(p.ability, DecimalValue(p.digits)), |PartsText(p)|)
  }

  /** Some match of the pattern starts `t`. */
  ghost predicate PatternStarts(t: string) {
    exists p :: WellFormedParts(p) && PartsText(p) <= t
  }

  /**
   * The match the regular expression reports at the start of `t`: `\d{1,2}`
   * is greedy, so it stops after one digit only when no digit follows.
   */
  predicate PatternAt(t: string, p: TagParts) {
    && WellFormedParts(p)
    && PartsText(p) <= t
    && (|p.digits| == 2 || |t| == |PartsText(p)| || !IsDigit(t[|PartsText(p)|]))
  }

  lemma NonSpaceChar(c: char)
    requires IsDigit(c) || c == ':' || c == '='
    ensures !IsSpace(c)
  {
  }

  /** `\d{1,2}`, greedy: two digits, or one digit with no digit after it, are read whole. */
  lemma LeadingDigitsGreedy(digits: string, rest: string)
    requires AllDigits(digits) && 1 <= |digits| <= 2
    requires |digits| == 2 || rest == [] || !IsDigit(rest[0])
    ensures LeadingDigits(digits + rest) == Some(ValueMatch(DecimalValue(digits), |digits|))
  {
    var s := digits + rest;
    assert s[0] == digits[0];
    if |digits| == 2 {
      assert s[1] == digits[1];
    } else if |s| > 1 {
      assert s[1] == rest[0];
    }
    assert s[..|digits|] == digits;
  }

  /** What `LeadingDigits` reads is one or two digits, as many as there are. */
  lemma LeadingDigitsSplit(s: string) returns (digits: string, rest: string)
    requires LeadingDigits(s).Some?
    ensures s == digits + rest
    ensures AllDigits(digits) && 1 <= |digits| <= 2
    ensures |digits| == 2 || rest == [] || !IsDigit(rest[0])
    ensures LeadingDigits(s).value == ValueMatch(DecimalValue(digits), |digits|)
  {
    var n := LeadingDigits(s).value.length;
    digits := s[..n];
    rest := s[n..];
    assert s == digits + rest;
  }

  /** `\s*` skips exactly the white space `w` when what follows is not white space. */
  lemma SkipSpacesOf(w: string, rest: string)
    requires AllSpace(w) && (rest == [] || !IsSpace(rest[0]))
    ensures SkipSpaces(w + rest) == rest
  {
    SpacePrefixOf(w, rest);
  }

  /** `\s*` skips white space and stops before the rest. */
  lemma SkipSpacesSplit(s: string) returns (w: string)
    ensures AllSpace(w) && s == w + SkipSpaces(s)
  {
    SpacePrefixSpaces(s);
    w := s[..SpacePrefix(s)];
    assert s == w + s[SpacePrefix(s)..];
  }

  /** `TagValue` on a text whose value part, after white space and the separator, is `s4`. */
  lemma TagValueOf(s: string, s4: string, v: ValueMatch)
    requires SkipSpaces(SkipSeparator(SkipSpaces(s))) == s4 && LeadingDigits(s4) == Some(v)
    ensures TagValue(s) == Some(ValueMatch(v.value, |s| - |s4| + v.length))
  {
  }

  /** White space, then the digits: what is left is the text from the digits on. */
  lemma SkipUnseparated(gap1: string, gap2: string, ds: string)
    requires AllSpace(gap1) && AllSpace(gap2)
    requires ds != [] && IsDigit(ds[0])
    ensures SkipSpaces(SkipSeparator(SkipSpaces(gap1 + gap2 + ds))) == ds
  {
    NonSpaceChar(ds[0]);
    SpaceJoin(gap1, gap2);
    SkipSpacesOf(gap1 + gap2, ds);
    SkipNone(ds);
  }

  lemma SpaceJoin(w1: string, w2: string)
    requires AllSpace(w1) && AllSpace(w2)
    ensures AllSpace(w1 + w2)
  {
    var w := w1 + w2;
    forall i | 0 <= i < |w| ensures IsSpace(w[i]) {
      if i < |w1| { assert w[i] == w1[i]; } else { assert w[i] == w2[i - |w1|]; }
    }
  }

  /** White space, ':' or '=', white space: what is left is the text from the digits on. */
  lemma SkipSeparated(gap1: string, sep: char, gap2: string, ds: string)
    requires AllSpace(gap1) && (sep == ':' || sep == '=') && AllSpace(gap2)
    requires ds != [] && IsDigit(ds[0])
    ensures SkipSpaces(SkipSeparator(SkipSpaces(gap1 + ([sep] + (gap2 + ds))))) == ds
  {
    var s2 := [sep] + (gap2 + ds);
    NonSpaceChar(ds[0]);
    NonSpaceChar(sep);
    assert s2[0] == sep && s2[1..] == gap2 + ds;
    SkipSpacesOf(gap1, s2);
    SkipSpacesOf(gap2, ds);
  }

  /** After the key, the white space and the separator of a match are skipped up to its digits. */
  lemma SkipToDigits(p: TagParts, rest: string)
    requires WellFormedParts(p)
    ensures SkipSpaces(SkipSeparator(SkipSpaces(AfterKey(p) + rest))) == p.digits + rest
  {
    var ds := p.digits + rest;
    assert ds[0] == p.digits[0];
    AfterKeyThen(p, rest);
    if p.sep == [] {
      assert AfterKey(p) + rest == p.gap1 + p.gap2 + ds;
      SkipUnseparated(p.gap1, p.gap2, ds);
    } else {
      assert p.sep == [p.sep[0]];
      SkipSeparated(p.gap1, p.sep[0], p.gap2, ds);
    }
  }

  /** After the key, the pattern reads the rest of a match whole. */
  lemma TagValueOfParts(p: TagParts, rest: string)
    requires WellFormedParts(p)
    requires |p.digits| == 2 || rest == [] || !IsDigit(rest[0])
    ensures TagValue(AfterKey(p) + rest) == Some(ValueMatch(DecimalValue(p.digits), |AfterKey(p)|))
  {
    var u := AfterKey(p) + rest;
    var v := ValueMatch(DecimalValue(p.digits), |p.digits|);
    assert SkipSpaces(SkipSeparator(SkipSpaces(u))) == p.digits + rest by {
      SkipToDigits(p, rest);
    }
    assert LeadingDigits(p.digits + rest) == Some(v) by {
      LeadingDigitsGreedy(p.digits, rest);
    }
    TagValueOf(u, p.digits + rest, v);
  }

  /** A key followed by a text: the key is found, and the text is what follows it. */
  lemma KeyThen(a: Ability, w: string)
    ensures |KeyName(a)| == 3 && (KeyName(a) + w)[3..] == w
    ensures KeyAt(KeyName(a) + w) == Some(a)
  {
    KeyAtWord(a, w);
  }

  /** The pattern reads the parts of a match whole. */
  lemma TagPrefixOfParts(p: TagParts, rest: string)
    requires WellFormedParts(p)
    requires |p.digits| == 2 || rest == [] || !IsDigit(rest[0])
    ensures TagPrefix(KeyName(p.ability) + (AfterKey(p) + rest)) == Some(PartsMatch(p))
  {
    var w := AfterKey(p) + rest;
    var t := KeyName(p.ability) + w;
    var v := ValueMatch(DecimalValue(p.digits), |AfterKey(p)|);
    assert |KeyName(p.ability)| == 3 && KeyAt(t) == Some(p.ability) && t[3..] == w by {
      KeyThen(p.ability, w);
    }
    assert TagValue(w) == Some(v) by {
      TagValueOfParts(p, rest);
    }
    var m := TagMatch(Tag(p.ability, v.value), 3 + v.length);
    assert TagPrefix(t) == Some(m) by {
      TagPrefixOf(t, p.ability, v);
    }
    assert m == PartsMatch(p);
  }

  /** `TagPrefix` once the key and the value after it are known. */
  lemma TagPrefixOf(t: string, a: Ability, v: ValueMatch)
    requires |t| >= 3 && KeyAt(t) == Some(a) && TagValue(t[3..]) == Some(v)
    ensures TagPrefix(t) == Some(TagMatch(Tag(a, v.value), 3 + v.length))
  {
  }

  /** Wherever the pattern matches, `TagPrefix` reports that match. */
  lemma TagPrefixComplete(t: string, p: TagParts)
    requires PatternAt(t, p)
    ensures TagPrefix(t) == Some(PartsMatch(p))
  {
    var rest := t[|PartsText(p)|..];
    assert t == KeyName(p.ability) + (AfterKey(p) + rest) by {
      assert t == PartsText(p) + rest;
    }
    assert |p.digits| == 2 || rest == [] || !IsDigit(rest[0]) by {
      if rest != [] { assert rest[0] == t[|PartsText(p)|]; }
    }
    TagPrefixOfParts(p, rest);
  }

  /** What `TagValue` reads after a key is white space, an optional ':' or '=', white space and the digits. */
  lemma TagValueSplit(u: string) returns (p: TagParts, rest: string)
    requires TagValue(u).Some?
    ensures WellFormedParts(p)
    ensures |p.digits| == 2 || rest == [] || !IsDigit(rest[0])
    ensures u == AfterKey(p) + rest
    ensures TagValue(u).value == ValueMatch(DecimalValue(p.digits), |AfterKey(p)|)
  {
    var s2 := SkipSpaces(u);
    var gap1 := SkipSpacesSplit(u);
    var s3 := SkipSeparator(s2);
    var sep := SeparatorSplit(s2);
    var s4 := SkipSpaces(s3);
    var gap2 := SkipSpacesSplit(s3);
    var digits;
    digits, rest := LeadingDigitsSplit(s4);
    p := TagParts(STR, gap1, sep, gap2, digits);
    assert u == AfterKey(p) + rest by {
      AfterKeyThen(p, rest);
    }
    assert |u| - |s4| + |digits| == |AfterKey(p)|;
    TagValueOf(u, s4, LeadingDigits(s4).value);
  }

  /** `[:=]?` takes the separator, if there is one, off the front of the text. */
  lemma SeparatorSplit(s: string) returns (sep: string)
    ensures (sep == [] || sep == ":" || sep == "=") && s == sep + SkipSeparator(s)
  {
    sep := if s != [] && (s[0] == ':' || s[0] == '=') then s[..1] else [];
    assert s == sep + SkipSeparator(s);
  }

  /** The parts of a match, followed by text that does not lengthen its digits, are the match the pattern reports. */
  lemma PatternOfParts(p: TagParts, rest: string)
    requires WellFormedParts(p)
    requires |p.digits| == 2 || rest == [] || !IsDigit(rest[0])
    ensures PatternAt(KeyName(p.ability) + (AfterKey(p) + rest), p)
  {
    var t := KeyName(p.ability) + (AfterKey(p) + rest);
    assert t == PartsText(p) + rest;
    assert t[..|PartsText(p)|] == PartsText(p);
    if rest != [] {
      assert t[|PartsText(p)|] == rest[0];
    }
  }

  /** Whatever `TagPrefix` reports is the pattern's match at the start of the text. */
  lemma TagPrefixSound(t: string)
    requires TagPrefix(t).Some?
    ensures exists p :: PatternAt(t, p) && TagPrefix(t) == Some(PartsMatch(p))
  {
    var a := KeyAt(t).value;
    var u := t[3..];
    var q, rest := TagValueSplit(u);
    var p := q.(ability := a);
    assert AfterKey(p) == AfterKey(q);
    assert t == KeyName(a) + (AfterKey(p) + rest) by {
      assert t == t[..3] + u;
    }
    PatternOfParts(p, rest);
    TagPrefixOfParts(p, rest);
  }

  /**
   * Any match of the pattern can be read greedily: a single digit followed
   * by another one gives the two-digit match over the same text.
   */
  lemma GreedyParts(p: TagParts, rest: string) returns (q: TagParts, rest2: string)
    requires WellFormedParts(p)
    ensures WellFormedParts(q) && q.ability == p.ability
    ensures |q.digits| == 2 || rest2 == [] || !IsDigit(rest2[0])
    ensures AfterKey(q) + rest2 == AfterKey(p) + rest
  {
    if |p.digits| == 1 && rest != [] && IsDigit(rest[0]) {
      q := p.(digits := p.digits + [rest[0]]);
      rest2 := rest[1..];
      assert q.digits + rest2 == p.digits + rest;
      AfterKeyThen(p, rest);
      AfterKeyThen(q, rest2);
    } else {
      q, rest2 := p, rest;
    }
  }

  /** Wherever some match of the pattern starts the text, `TagPrefix` finds one. */
  lemma TagPrefixFindsAny(t: string)
    requires PatternStarts(t)
    ensures TagPrefix(t).Some?
  {
    var p :| WellFormedParts(p) && PartsText(p) <= t;
    var rest := t[|PartsText(p)|..];
    assert t == KeyName(p.ability) + (AfterKey(p) + rest) by {
      assert t == PartsText(p) + rest;
    }
    var q, rest2 := GreedyParts(p, rest);
    TagPrefixOfParts(q, rest2);
  }

  /** `TagPrefix` finds a match exactly when some match of the pattern starts the text. */
  lemma TagPrefixFinds(t: string)
    ensures TagPrefix(t).Some? <==> PatternStarts(t)
  {
    if TagPrefix(t).Some? {
      TagPrefixSound(t);
    }
    if PatternStarts(t) {
      TagPrefixFindsAny(t);
    }
  }

  /** A match of the pattern at position `pos` of the text. */
  datatype Hit = Hit(pos: nat, parts: TagParts)

  function HitEnd(h: Hit): nat {
    h.pos + |PartsText(h.parts)|
  }

  /** Where the text before match `k` begins: at `from`, or where match `k - 1` ends. */
  function GapStart(from: nat, hits: seq<Hit>, k: nat): nat
    requires k <= |hits|
  {
    if k == 0 then from else HitEnd(hits[k - 1])
  }

  /** Where the text before match `k` ends: where match `k` starts, or at the end of the text. */
  function GapEnd(s: string, hits: seq<Hit>, k: nat): nat
    requires k <= |hits|
  {
    if k == |hits| then |s| else hits[k].pos
  }

  /** No match of the pattern starts at a position in [lo, hi). */
  ghost predicate NoMatchBetween(s: string, lo: nat, hi: nat) {
    forall j :: lo <= j < hi && j <= |s| ==> !PatternStarts(s[j..])
  }

  /**
   * What `matchAll` of the pattern over `s` from position `from` reports:
   * matches in order without overlap, each the one the regular expression
   * reports at its position, and no match starting anywhere in the text
   * before, between or after them.
   */
  ghost predicate IsMatchAll(s: string, from: nat, hits: seq<Hit>) {
    from <= |s| && HitsInOrder(s, from, hits) && AllMatch(s, hits) && GapsFree(s, from, hits)
  }

  /** The matches follow one another without overlap, from `from` to the end of the text. */
  predicate HitsInOrder(s: string, from: nat, hits: seq<Hit>) {
    forall k :: 0 <= k <= |hits| ==> GapStart(from, hits, k) <= GapEnd(s, hits, k)
  }

  /** Each match is the one the regular expression reports at its position. */
  predicate AllMatch(s: string, hits: seq<Hit>) {
    forall k :: 0 <= k < |hits| ==> HitEnd(hits[k]) <= |s| && PatternAt(s[hits[k].pos..], hits[k].parts)
  }

  /** No match starts in the text before, between or after the matches. */
  ghost predicate GapsFree(s: string, from: nat, hits: seq<Hit>) {
    forall k :: 0 <= k <= |hits| ==> NoMatchBetween(s, GapStart(from, hits, k), GapEnd(s, hits, k))
  }

  /** The tags the matches name, in order. */
  function HitTags(hits: seq<Hit>): (r: seq<Tag>)
    requires forall k :: 0 <= k < |hits| ==> WellFormedParts(hits[k].parts)
    ensures |r| == |hits|
    ensures forall k :: 0 <= k < |hits| ==> r[k] == PartsMatch(hits[k].parts).tag
  {
    if hits == [] then [] else [PartsMatch(hits[0].parts).tag] + HitTags(hits[1..])
  }

  /** The matches after the first one are what `matchAll` reports from where the first one ends. */
  lemma ScanAfterHit(s: string, from: nat, hits: seq<Hit>)
    requires IsMatchAll(s, from, hits) && hits != []
    ensures IsMatchAll(s, HitEnd(hits[0]), hits[1..])
  {
    var e := HitEnd(hits[0]);
    var tl := hits[1..];
    assert GapStart(from, hits, 1) == e;
    forall k | 0 <= k <= |tl|
      ensures GapStart(e, tl, k) == GapStart(from, hits, k + 1)
      ensures GapEnd(s, tl, k) == GapEnd(s, hits, k + 1)
    {
    }
    assert e <= |s|;
    forall k | 0 <= k <= |tl|
      ensures GapStart(e, tl, k) <= GapEnd(s, tl, k)
      ensures NoMatchBetween(s, GapStart(e, tl, k), GapEnd(s, tl, k))
    {
      assert GapStart(from, hits, k + 1) <= GapEnd(s, hits, k + 1);
      assert NoMatchBetween(s, GapStart(from, hits, k + 1), GapEnd(s, hits, k + 1));
    }
    forall k | 0 <= k < |tl|
      ensures HitEnd(tl[k]) <= |s| && PatternAt(s[tl[k].pos..], tl[k].parts)
    {
      assert tl[k] == hits[k + 1];
    }
  }

  /** Before the first match, `matchAll` reports the same from one position further on. */
  lemma ScanAfterGap(s: string, from: nat, hits: seq<Hit>)
    requires IsMatchAll(s, from, hits) && from < GapEnd(s, hits, 0)
    ensures IsMatchAll(s, from + 1, hits)
  {
    assert GapStart(from + 1, hits, 0) == from + 1;
    forall k | 0 < k <= |hits| ensures GapStart(from + 1, hits, k) == GapStart(from, hits, k) {
    }
    assert NoMatchBetween(s, GapStart(from, hits, 0), GapEnd(s, hits, 0));
  }

  /** `TagMatches` reports the tags of the matches `matchAll` reports, in order. */
  lemma {:induction false} TagMatchesOfMatchAll(s: string, from: nat, hits: seq<Hit>)
    requires IsMatchAll(s, from, hits)
    ensures TagMatches(s[from..]) == HitTags(hits)
    decreases |s| - from
  {
    if hits != [] && hits[0].pos == from {
      var h := hits[0];
      assert HitEnd(h) <= |s| && PatternAt(s[from..], h.parts);
      TagMatchesAtHit(s, h);
      ScanAfterHit(s, from, hits);
      TagMatchesOfMatchAll(s, HitEnd(h), hits[1..]);
    } else if from == |s| {
    } else {
      assert from < GapEnd(s, hits, 0) by {
        assert GapStart(from, hits, 0) <= GapEnd(s, hits, 0);
      }
      assert !PatternStarts(s[from..]) by {
        assert NoMatchBetween(s, GapStart(from, hits, 0), GapEnd(s, hits, 0));
      }
      TagMatchesAtGap(s, from);
      ScanAfterGap(s, from, hits);
      TagMatchesOfMatchAll(s, from + 1, hits);
    }
  }

  /** Where a match starts, `TagMatches` reports its tag and goes on after it. */
  lemma TagMatchesAtHit(s: string, h: Hit)
    requires HitEnd(h) <= |s| && PatternAt(s[h.pos..], h.parts)
    ensures TagMatches(s[h.pos..]) == [PartsMatch(h.parts).tag] + TagMatches(s[HitEnd(h)..])
  {
    var t := s[h.pos..];
    var m := PartsMatch(h.parts);
    assert TagPrefix(t) == Some(m) by {
      TagPrefixComplete(t, h.parts);
    }
    assert t != [] && t[m.length..] == s[HitEnd(h)..];
  }

  /** Where no match starts, `TagMatches` goes on one position further. */
  lemma TagMatchesAtGap(s: string, from: nat)
    requires from < |s| && !PatternStarts(s[from..])
    ensures TagMatches(s[from..]) == TagMatches(s[from + 1..])
  {
    var t := s[from..];
    TagPrefixFinds(t);
    assert t[1..] == s[from + 1..];
  }

  /** A position where no match starts can be added in front of the text `matchAll` scans. */
  lemma ScanFromGap(s: string, from: nat, hits: seq<Hit>)
    requires from < |s| && !PatternStarts(s[from..])
    requires IsMatchAll(s, from + 1, hits)
    ensures IsMatchAll(s, from, hits)
  {
    forall k | 0 <= k <= |hits|
      ensures GapStart(from, hits, k) <= GapEnd(s, hits, k)
      ensures NoMatchBetween(s, GapStart(from, hits, k), GapEnd(s, hits, k))
    {
      assert GapStart(from + 1, hits, k) <= GapEnd(s, hits, k);
      assert NoMatchBetween(s, GapStart(from + 1, hits, k), GapEnd(s, hits, k));
      if k == 0 {
        forall j | from <= j < GapEnd(s, hits, 0) && j <= |s| ensures !PatternStarts(s[j..]) {
          if j > from {
            assert GapStart(from + 1, hits, 0) <= j;
          }
        }
      } else {
        assert GapStart(from, hits, k) == GapStart(from + 1, hits, k);
      }
    }
  }

  /** The match at `from` can be added in front of what `matchAll` reports after it. */
  lemma ScanFromHit(s: string, from: nat, p: TagParts, hits: seq<Hit>)
    requires from <= |s| && PatternAt(s[from..], p)
    requires IsMatchAll(s, HitEnd(Hit(from, p)), hits)
    ensures IsMatchAll(s, from, [Hit(from, p)] + hits)
  {
    HitsInOrderFromHit(s, from, Hit(from, p), hits);
    AllMatchFromHit(s, Hit(from, p), hits);
    GapsFreeFromHit(s, from, Hit(from, p), hits);
  }

  lemma HitsInOrderFromHit(s: string, from: nat, h: Hit, hits: seq<Hit>)
    requires h.pos == from && HitsInOrder(s, HitEnd(h), hits)
    ensures HitsInOrder(s, from, [h] + hits)
  {
    var all := [h] + hits;
    forall k | 0 < k <= |all| ensures GapStart(from, all, k) <= GapEnd(s, all, k) {
      assert GapStart(from, all, k) == GapStart(HitEnd(h), hits, k - 1);
      assert GapEnd(s, all, k) == GapEnd(s, hits, k - 1);
    }
  }

  lemma AllMatchFromHit(s: string, h: Hit, hits: seq<Hit>)
    requires HitEnd(h) <= |s| && PatternAt(s[h.pos..], h.parts) && AllMatch(s, hits)
    ensures AllMatch(s, [h] + hits)
  {
    var all := [h] + hits;
    forall k | 0 < k < |all| ensures HitEnd(all[k]) <= |s| && PatternAt(s[all[k].pos..], all[k].parts) {
      assert all[k] == hits[k - 1];
    }
  }

  lemma GapsFreeFromHit(s: string, from: nat, h: Hit, hits: seq<Hit>)
    requires h.pos == from && GapsFree(s, HitEnd(h), hits)
    ensures GapsFree(s, from, [h] + hits)
  {
    var all := [h] + hits;
    forall k | 0 < k <= |all| ensures NoMatchBetween(s, GapStart(from, all, k), GapEnd(s, all, k)) {
      assert GapStart(from, all, k) == GapStart(HitEnd(h), hits, k - 1);
      assert GapEnd(s, all, k) == GapEnd(s, hits, k - 1);
    }
  }

  /** The matches `matchAll` reports over `s` from position `from`. */
  lemma {:induction false} MatchAllFrom(s: string, from: nat) returns (hits: seq<Hit>)
    requires from <= |s|
    ensures IsMatchAll(s, from, hits)
    decreases |s| - from
  {
    if from == |s| {
      hits := [];
    } else {
      var t := s[from..];
      TagPrefixFinds(t);
      if TagPrefix(t).None? {
        hits := MatchAllFrom(s, from + 1);
        ScanFromGap(s, from, hits);
      } else {
        TagPrefixSound(t);
        var p :| PatternAt(t, p) && TagPrefix(t) == Some(PartsMatch(p));
        var after := MatchAllFrom(s, HitEnd(Hit(from, p)));
        ScanFromHit(s, from, p, after);
        hits := [Hit(from, p)] + after;
      }
    }
  }

  /** Every text's tags, as `TagMatches` reads them, are those of its `matchAll` matches. */
  lemma TagMatchesAreMatchAll(s: string)
    ensures exists hits :: IsMatchAll(s, 0, hits) && TagMatches(s) == HitTags(hits)
  {
    var hits := MatchAllFrom(s, 0);
    TagMatchesOfMatchAll(s, 0, hits);
    assert s[0..] == s;
  }

  /**
   * A normalized answer that is no keyword, whose `matchAll` matches name
   * every ability, is read as those matches' scores, a later match for an
   * ability overwriting an earlier one.
   */
  lemma ParseOfMatchAll(t: string, hits: seq<Hit>)
    requires ToLower(Trim(t)) == t && t != [] && t !in KEYWORDS
    requires IsMatchAll(t, 0, hits) && hits != []
    requires FullScores(TagMap(HitTags(hits)))
    ensures ParseAbilityInput(t) == Some(TagMap(HitTags(hits)))
  {
    TagMatchesOfMatchAll(t, 0, hits);
    assert t[0..] == t;
    ParseOfTags(t, HitTags(hits));
  }

  // ----- six numbers -----

  /** Numbers written in decimal, separated by single spaces. */
  function NumberText(ns: seq<nat>): string
    requires ns != []
  {
    if |ns| == 1 then NatToDecimal(ns[0]) else NatToDecimal(ns[0]) + " " + NumberText(ns[1..])
  }

  /** The decimal texts of the numbers. */
  function Decimals(ns: seq<nat>): (r: seq<string>)
    ensures |r| == |ns| && forall i :: 0 <= i < |ns| ==> r[i] == NatToDecimal(ns[i])
  {
    seq(|ns|, i requires 0 <= i < |ns| => NatToDecimal(ns[i]))
  }

  lemma {:induction false} NumberTextShape(ns: seq<nat>)
    requires ns != []
    ensures var t := NumberText(ns); |t| > 0 && IsDigit(t[0]) && IsDigit(t[|t| - 1])
    ensures var t := NumberText(ns); forall i :: 0 <= i < |t| ==> IsDigit(t[i]) || t[i] == ' '
  {
    var w := NatToDecimal(ns[0]);
    if |ns| > 1 {
      var rest := NumberText(ns[1..]);
      NumberTextShape(ns[1..]);
      var t := w + " " + rest;
      assert t[0] == w[0] && t[|t| - 1] == rest[|rest| - 1];
      forall i | 0 <= i < |t| ensures IsDigit(t[i]) || t[i] == ' ' {
        if i < |w| { assert t[i] == w[i]; }
        else if i > |w| { assert t[i] == rest[i - |w| - 1]; }
      }
    }
  }

  /** A run of digits followed by a space and more text is the first token; the rest follow. */
  lemma DigitTokensStep(w: string, rest: string)
    requires w != [] && AllDigits(w)
    ensures DigitTokens(w + " " + rest) == [w] + DigitTokens(rest)
  {
    var s := w + " " + rest;
    assert s == w + (" " + rest);
    DigitPrefixOf(w, " " + rest);
    assert s[0] == w[0];
    assert DigitTokens(s) == [w] + DigitTokens(" " + rest);
    assert (" " + rest)[1..] == rest;
  }

  /** The runs of digits of a number text are the numbers' decimal texts. */
  lemma {:induction false} DigitTokensOfText(ns: seq<nat>)
    requires ns != []
    ensures DigitTokens(NumberText(ns)) == Decimals(ns)
  {
    var w := NatToDecimal(ns[0]);
    if |ns| == 1 {
      DigitPrefixOf(w, []);
      assert w + [] == w;
      assert DigitTokens(w[|w|..]) == [];
    } else {
      var rest := NumberText(ns[1..]);
      assert NumberText(ns) == w + " " + rest;
      DigitTokensStep(w, rest);
      DigitTokensOfText(ns[1..]);
      assert Decimals(ns) == [w] + Decimals(ns[1..]);
    }
  }

  /** A text with no lower-case letter holds no ability tag. */
  lemma {:induction false} NoTagsWithoutLetters(s: string)
    requires forall i :: 0 <= i < |s| ==> !('a' <= s[i] <= 'z')
    ensures TagMatches(s) == []
    decreases |s|
  {
    if s != [] {
      NoKeyAt(s);
      NoTagsWithoutLetters(s[1..]);
    }
  }

  /** Every keyword starts with a letter. */
  lemma KeywordsStartWithLetter()
    ensures forall k :: k in KEYWORDS ==> k != [] && 'a' <= k[0] <= 'z'
  {
  }

  /** Positional scores of decimal texts are the clamped numbers. */
  lemma PositionalOfDecimals(ns: seq<nat>)
    requires |ns| == |ABILITY_ORDER|
    ensures PositionalScores(Decimals(ns)) == InOrder(ns)
  {
    var tokens := Decimals(ns);
    var p := PositionalScores(tokens);
    forall a: Ability ensures p[a] == InOrder(ns)[a] {
      var i := AbilityIndex(a);
      ParseIntDigits(tokens[i]);
      DecimalRoundTrip(ns[i]);
    }
  }

  /** A normalized answer that is no keyword, has no tags and six runs of digits is read positionally. */
  lemma ParseOfNumbers(t: string)
    requires ToLower(Trim(t)) == t && t != [] && t !in KEYWORDS
    requires TagMatches(t) == [] && |DigitTokens(t)| == |ABILITY_ORDER|
    ensures ParseAbilityInput(t) == Some(PositionalScores(DigitTokens(t)))
  {
  }

  /** A number text is already normalized, is no keyword and holds no tags. */
  lemma NumberTextPlain(ns: seq<nat>)
    requires ns != []
    ensures var t := NumberText(ns); ToLower(Trim(t)) == t && t != [] && t !in KEYWORDS && TagMatches(t) == []
  {
    var t := NumberText(ns);
    NumberTextShape(ns);
    assert !IsSpace(t[0]) && !IsSpace(t[|t| - 1]);
    TrimTight(t);
    LowerUnchanged(t);
    KeywordsStartWithLetter();
    NoTagsWithoutLetters(t);
  }

  /**
   * Six numbers separated by spaces are the scores STR, DEX, CON, INT, WIS,
   * CHA in that order, each clamped to [1, 30].
   */
  lemma SixNumbersParse(ns: seq<nat>)
    requires |ns| == |ABILITY_ORDER|
    ensures ParseAbilityInput(NumberText(ns)) == Some(InOrder(ns))
  {
    NumberTextPlain(ns);
    DigitTokensOfText(ns);
    ParseOfNumbers(NumberText(ns));
    PositionalOfDecimals(ns);
  }
}
