/**
 * String operations of JavaScript that the application relies on: `startsWith`,
 * the emptiness of `trim()`, and the decimal rendering of a number inside a template
 * string (`prop-${Date.now()}`).
 */
module Text {

  /** `s.startsWith(prefix)`. */
  predicate StartsWith(s: string, prefix: string) {
    prefix <= s
  }

  /**
   * The characters `String.prototype.trim` strips: the ECMAScript WhiteSpace code points
   * (tab, vertical tab, form feed, space, no-break space, the byte-order mark and the
   * space separators of Unicode category Zs) and the LineTerminator code points.
   */
  predicate IsJsWhitespace(c: char) {
    c == '\U{0009}' || c == '\U{000B}' || c == '\U{000C}' || c == '\U{0020}' ||
    c == '\U{00A0}' || c == '\U{FEFF}' || c == '\U{1680}' ||
    ('\U{2000}' <= c <= '\U{200A}') || c == '\U{202F}' || c == '\U{205F}' || c == '\U{3000}' ||
    c == '\U{000A}' || c == '\U{000D}' || c == '\U{2028}' || c == '\U{2029}'
  }

  /** Everything `trim()` would strip, and only that: `s.trim()` is falsy. */
  function TrimmedIsEmpty(s: string): (r: bool)
    ensures r <==> forall k :: 0 <= k < |s| ==> IsJsWhitespace(s[k])
  {
    if s == [] then true else IsJsWhitespace(s[0]) && TrimmedIsEmpty(s[1..])
  }

  /** Lies outside the Basic Multilingual Plane, so UTF-16 writes it as a surrogate pair. */
  predicate IsAstral(c: char) {
    c > '\U{FFFF}'
  }

  /**
   * `s.length`: JavaScript counts UTF-16 code units, one per character of the Basic
   * Multilingual Plane and two per character beyond it.
   */
  function Utf16Length(s: string): (n: nat)
    ensures |s| <= n <= 2 * |s|
    ensures n == |s| <==> forall k :: 0 <= k < |s| ==> !IsAstral(s[k])
    ensures n == 2 * |s| <==> forall k :: 0 <= k < |s| ==> IsAstral(s[k])
  {
    if s == [] then 0
    else
      var rest := Utf16Length(s[1..]);
      assert forall k :: 1 <= k < |s| ==> s[k] == s[1..][k - 1];
      (if IsAstral(s[0]) then 2 else 1) + rest
  }

  /** Lengths of concatenated strings add up. */
  lemma {:induction false} Utf16LengthConcat(a: string, b: string)
    ensures Utf16Length(a + b) == Utf16Length(a) + Utf16Length(b)
  {
    if a != [] {
      assert (a + b)[0] == a[0] && (a + b)[1..] == a[1..] + b;
      Utf16LengthConcat(a[1..], b);
    } else {
      assert a + b == b;
    }
  }

  /** Two emoji after two letters make six code units: four characters, but `length` 6. */
  lemma Utf16LengthOfEmojiTitle()
    ensures |"ab\U{1F600}\U{1F600}"| == 4
    ensures Utf16Length("ab\U{1F600}\U{1F600}") == 6
  {
    var s := "ab\U{1F600}\U{1F600}";
    assert s == "ab" + "\U{1F600}\U{1F600}";
    Utf16LengthConcat("ab", "\U{1F600}\U{1F600}");
  }

  /** A decimal digit character. */
  function Digit(d: nat): (c: char)
    requires d < 10
    ensures '0' <= c <= '9'
  {
    ['0', '1', '2', '3', '4', '5', '6', '7', '8', '9'][d]
  }

  /** The decimal text of a non-negative integer, as `${n}` renders it. */
  function Decimal(n: nat): (r: string)
    ensures |r| >= 1
    ensures forall k :: 0 <= k < |r| ==> '0' <= r[k] <= '9'
    ensures (|r| == 1) <==> n < 10
  {
    if n < 10 then [Digit(n)] else Decimal(n / 10) + [Digit(n % 10)]
  }

  lemma DigitInjective(a: nat, b: nat)
    requires a < 10 && b < 10 && Digit(a) == Digit(b)
    ensures a == b
  {
  }

  /** Different numbers render as different texts, so two different instants give two different ids. */
  lemma {:induction false} DecimalInjective(a: nat, b: nat)
    requires Decimal(a) == Decimal(b)
    ensures a == b
  {
    if a >= 10 && b >= 10 {
      var da, db := Decimal(a), Decimal(b);
      assert da[|da| - 1] == Digit(a % 10);
      assert db[|db| - 1] == Digit(b % 10);
      DigitInjective(a % 10, b % 10);
      assert da[..|da| - 1] == Decimal(a / 10);
      assert db[..|db| - 1] == Decimal(b / 10);
      DecimalInjective(a / 10, b / 10);
    } else if a < 10 && b < 10 {
      DigitInjective(a, b);
    }
  }

  /** A fixed prefix followed by different numbers gives different texts. */
  lemma PrefixedDecimalInjective(prefix: string, a: nat, b: nat)
    requires prefix + Decimal(a) == prefix + Decimal(b)
    ensures a == b
  {
    assert Decimal(a) == (prefix + Decimal(a))[|prefix|..];
    DecimalInjective(a, b);
  }
}
