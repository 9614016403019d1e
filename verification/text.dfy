/**
 * The JavaScript string built-ins the modelled code relies on, written out:
 * the white-space class shared by `String.prototype.trim` and the regular
 * expression escape `\s`, trimming, ASCII digits and lower-casing,
 * `parseInt(text, 10)`, and the decimal text of an integer (template
 * literals).
 */
module Text {
  import opened Wrappers

  /** WhiteSpace and LineTerminator of ECMAScript: what `trim` removes and `\s` matches. */
  predicate IsSpace(c: char) {
    || c == ' ' || c == '\t' || c == '\n' || c == '\U{000B}' || c == '\U{000C}' || c == '\r'
    || c == '\U{00A0}' || c == '\U{1680}' || ('\U{2000}' <= c <= '\U{200A}')
    || c == '\U{2028}' || c == '\U{2029}' || c == '\U{202F}' || c == '\U{205F}'
    || c == '\U{3000}' || c == '\U{FEFF}'
  }

  predicate AllSpace(s: string) {
    forall i :: 0 <= i < |s| ==> IsSpace(s[i])
  }

  /** Neither end of `s` is white space (what a trimmed string looks like). */
  predicate Tight(s: string) {
    s == [] || (!IsSpace(s[0]) && !IsSpace(s[|s| - 1]))
  }

  function TrimStart(s: string): (r: string)
    ensures |r| <= |s|
  {
    if |s| > 0 && IsSpace(s[0]) then TrimStart(s[1..]) else s
  }

  /** `TrimStart` drops a prefix of white space and stops at the first other character. */
  lemma {:induction false} TrimStartSpec(s: string)
    ensures var r := TrimStart(s);
      && r == s[|s| - |r|..] && AllSpace(s[..|s| - |r|]) && (r == [] || !IsSpace(r[0]))
    decreases |s|
  {
    if |s| > 0 && IsSpace(s[0]) {
      TrimStartSpec(s[1..]);
      var r := TrimStart(s);
      assert s[1..][|s| - 1 - |r|..] == s[|s| - |r|..];
      var k := |s| - |r|;
      forall i | 0 <= i < k ensures IsSpace(s[..k][i]) {
        if i > 0 { assert s[..k][i] == s[1..][..k - 1][i - 1]; }
      }
    }
  }

  function TrimEnd(s: string): (r: string)
    ensures |r| <= |s|
  {
    if |s| > 0 && IsSpace(s[|s| - 1]) then TrimEnd(s[..|s| - 1]) else s
  }

  /** `TrimEnd` drops a suffix of white space and stops at the last other character. */
  lemma {:induction false} TrimEndSpec(s: string)
    ensures var r := TrimEnd(s);
      && r == s[..|r|] && AllSpace(s[|r|..]) && (r == [] || !IsSpace(r[|r| - 1]))
    decreases |s|
  {
    if |s| > 0 && IsSpace(s[|s| - 1]) {
      var p := s[..|s| - 1];
      TrimEndSpec(p);
      var r := TrimEnd(s);
      assert p[..|r|] == s[..|r|];
      assert forall i :: |r| <= i < |s| - 1 ==> s[i] == p[|r|..][i - |r|];
    }
  }

  /** `String.prototype.trim`. */
  function Trim(s: string): (r: string)
    ensures Tight(r)
    ensures |r| <= |s|
  {
    var t := TrimStart(s);
    TrimStartSpec(s);
    TrimEndSpec(t);
    TrimEnd(t)
  }

  /** Trimming leaves nothing exactly when the text is all white space. */
  lemma TrimBlank(s: string)
    ensures Trim(s) == [] <==> AllSpace(s)
  {
    var t := TrimStart(s);
    TrimStartSpec(s);
    TrimEndSpec(t);
    var r := TrimEnd(t);
    if r == [] {
      assert t[|r|..] == t;
      assert s[..|s| - |t|] == s;
    }
  }

  /** Removing white space that surrounds a tight text gives that text back. */
  lemma {:induction false} TrimPadded(front: string, x: string, back: string)
    requires AllSpace(front) && AllSpace(back) && Tight(x)
    ensures Trim(front + x + back) == x
  {
    if x == [] {
      var s := front + x + back;
      assert AllSpace(s) by {
        forall i | 0 <= i < |s| ensures IsSpace(s[i]) {
          if i < |front| { assert s[i] == front[i]; } else { assert s[i] == back[i - |front|]; }
        }
      }
      TrimBlank(s);
    } else {
      assert front + x + back == front + (x + back);
      TrimStartPadded(front, x + back);
      TrimEndPadded(x, back);
    }
  }

  lemma {:induction false} TrimStartPadded(front: string, rest: string)
    requires AllSpace(front)
    requires rest == [] || !IsSpace(rest[0])
    ensures TrimStart(front + rest) == rest
    decreases |front|
  {
    if front != [] {
      assert (front + rest)[1..] == front[1..] + rest;
      TrimStartPadded(front[1..], rest);
    } else {
      assert front + rest == rest;
    }
  }

  lemma {:induction false} TrimEndPadded(x: string, back: string)
    requires AllSpace(back) && Tight(x)
    ensures TrimEnd(x + back) == x
    decreases |back|
  {
    if back != [] {
      assert (x + back)[..|x + back| - 1] == x + back[..|back| - 1];
      TrimEndPadded(x, back[..|back| - 1]);
    } else {
      assert x + back == x;
    }
  }

  /** A text with no white space at either end is its own trim. */
  lemma TrimTight(s: string)
    requires Tight(s)
    ensures Trim(s) == s
  {
    TrimPadded([], s, []);
    assert [] + s + [] == s;
  }

  // ----- ASCII digits and letters -----

  predicate IsDigit(c: char) {
    '0' <= c <= '9'
  }

  predicate AllDigits(s: string) {
    forall i :: 0 <= i < |s| ==> IsDigit(s[i])
  }

  function DigitValue(c: char): (d: nat)
    requires IsDigit(c)
    ensures d < 10
  {
    c as int - '0' as int
  }

  function DigitChar(d: nat): (c: char)
    requires d < 10
    ensures IsDigit(c) && DigitValue(c) == d
  {
    ('0' as int + d) as char
  }

  /** The value of a string of decimal digits, most significant first (`parseInt` of digits only). */
  function DecimalValue(ds: string): (v: nat)
    requires AllDigits(ds)
    ensures ds == [] ==> v == 0
  {
    if ds == [] then 0 else DecimalValue(ds[..|ds| - 1]) * 10 + DigitValue(ds[|ds| - 1])
  }

  /** The decimal text of a non-negative integer, as a template literal prints it. */
  function NatToDecimal(n: nat): (s: string)
    ensures s != [] && AllDigits(s)
    ensures |s| > 1 ==> s[0] != '0'
  {
    if n < 10 then [DigitChar(n)] else NatToDecimal(n / 10) + [DigitChar(n % 10)]
  }

  /** The decimal text of any integer, with a leading '-' when negative. */
  function IntToDecimal(i: int): (s: string)
    ensures s != [] && (i < 0 <==> s[0] == '-')
  {
    if i < 0 then "-" + NatToDecimal(-i) else NatToDecimal(i)
  }

  /** Reading back the decimal text of `n` gives `n`. */
  lemma {:induction false} DecimalRoundTrip(n: nat)
    ensures DecimalValue(NatToDecimal(n)) == n
  {
    if n >= 10 {
      var s := NatToDecimal(n);
      assert s[..|s| - 1] == NatToDecimal(n / 10);
      DecimalRoundTrip(n / 10);
    }
  }

  /** Decimal texts without leading zeros name distinct numbers. */
  lemma NatToDecimalInjective(m: nat, n: nat)
    requires NatToDecimal(m) == NatToDecimal(n)
    ensures m == n
  {
    DecimalRoundTrip(m);
    DecimalRoundTrip(n);
  }

  /** The length of the longest prefix of `s` made of white space. */
  function SpacePrefix(s: string): (n: nat)
    ensures n <= |s|
    ensures n == |s| || !IsSpace(s[n])
  {
    if s != [] && IsSpace(s[0]) then SpacePrefix(s[1..]) + 1 else 0
  }

  /** The prefix `SpacePrefix` measures is white space. */
  lemma {:induction false} SpacePrefixSpaces(s: string)
    ensures AllSpace(s[..SpacePrefix(s)])
    decreases |s|
  {
    if s != [] && IsSpace(s[0]) {
      var n := SpacePrefix(s);
      SpacePrefixSpaces(s[1..]);
      assert s[..n] == [s[0]] + s[1..][..n - 1];
    }
  }

  /** The length of the longest prefix of `s` made of digits. */
  function DigitPrefix(s: string): (n: nat)
    ensures n <= |s|
    ensures n == |s| || !IsDigit(s[n])
  {
    if s != [] && IsDigit(s[0]) then DigitPrefix(s[1..]) + 1 else 0
  }

  /** The prefix `DigitPrefix` measures is digits. */
  lemma {:induction false} DigitPrefixDigits(s: string)
    ensures AllDigits(s[..DigitPrefix(s)])
    decreases |s|
  {
    if s != [] && IsDigit(s[0]) {
      var n := DigitPrefix(s);
      DigitPrefixDigits(s[1..]);
      assert s[..n] == [s[0]] + s[1..][..n - 1];
    }
  }

  /** A text is its first `n` characters followed by the rest. */
  lemma SplitAt(s: string, n: nat)
    requires n <= |s|
    ensures s == s[..n] + s[n..]
  {
  }

  /** A text from position `i` on is the character at `i` followed by the rest. */
  lemma ConsAt(s: string, i: nat)
    requires i < |s|
    ensures s[i..] == [s[i]] + s[i + 1..]
  {
  }

  lemma AppendParts(w: string, rest: string)
    ensures (w + rest)[..|w|] == w && (w + rest)[|w|..] == rest
  {
  }

  /** White space `w` followed by a text that does not start with white space: the prefix is `w`. */
  lemma {:induction false} SpacePrefixOf(w: string, rest: string)
    requires AllSpace(w)
    requires rest == [] || !IsSpace(rest[0])
    ensures SpacePrefix(w + rest) == |w|
    ensures (w + rest)[..|w|] == w && (w + rest)[|w|..] == rest
  {
    AppendParts(w, rest);
    if w != [] {
      assert (w + rest)[1..] == w[1..] + rest;
      SpacePrefixOf(w[1..], rest);
    } else {
      assert w + rest == rest;
    }
  }

  /** Digits `w` followed by a text that does not start with a digit: the prefix is `w`. */
  lemma {:induction false} DigitPrefixOf(w: string, rest: string)
    requires AllDigits(w)
    requires rest == [] || !IsDigit(rest[0])
    ensures DigitPrefix(w + rest) == |w|
    ensures (w + rest)[..|w|] == w && (w + rest)[|w|..] == rest
  {
    AppendParts(w, rest);
    if w != [] {
      assert (w + rest)[1..] == w[1..] + rest;
      DigitPrefixOf(w[1..], rest);
    } else {
      assert w + rest == rest;
    }
  }

  /**
   * `parseInt(s, 10)`: skip leading white space, read an optional sign and
   * the longest run of digits after it; no digit is NaN (here `None`).
   */
  function ParseInt(s: string): Option<int>
  {
    var t := TrimStart(s);
    var negative := |t| > 0 && t[0] == '-';
    var start := if |t| > 0 && (t[0] == '+' || t[0] == '-') then 1 else 0;
    var digits := t[start..];
    var n := DigitPrefix(digits);
    if n == 0 then None
    else
      DigitPrefixDigits(digits);
      var magnitude: int := DecimalValue(digits[..n]);
      Some(if negative then -magnitude else magnitude)
  }

  /** `parseInt` gives a number exactly when a digit follows the white space and an optional sign. */
  lemma ParseIntSome(s: string)
    ensures ParseInt(s).Some? <==>
      var t := TrimStart(s);
      (|t| > 0 && IsDigit(t[0])) || (|t| > 1 && (t[0] == '+' || t[0] == '-') && IsDigit(t[1]))
  {
  }

  /** On a non-empty run of digits `parseInt` is the decimal value. */
  lemma ParseIntDigits(s: string)
    requires AllDigits(s) && s != []
    ensures ParseInt(s) == Some(DecimalValue(s))
  {
    assert !IsSpace(s[0]);
    assert s[0..] == s + [];
    DigitPrefixOf(s, []);
  }

  /** ASCII `toLowerCase`: letters A-Z become a-z, every other character is kept. */
  function LowerChar(c: char): (d: char)
    ensures ('A' <= c <= 'Z') ==> d as int == c as int + 32
    ensures !('A' <= c <= 'Z') ==> d == c
  {
    if 'A' <= c <= 'Z' then (c as int + 32) as char else c
  }

  function ToLower(s: string): (r: string)
    ensures |r| == |s|
  {
    if s == [] then [] else [LowerChar(s[0])] + ToLower(s[1..])
  }

  /** `ToLower` lowers each character in place. */
  lemma {:induction false} ToLowerAt(s: string)
    ensures forall i :: 0 <= i < |s| ==> ToLower(s)[i] == LowerChar(s[i])
    decreases |s|
  {
    if s != [] {
      ToLowerAt(s[1..]);
    }
  }

  /** `s.includes(p)`: `p` starts at some position of `s`. */
  predicate Contains(s: string, p: string) {
    p <= s || (s != [] && Contains(s[1..], p))
  }
}
