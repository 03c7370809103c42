/**
 * The string operations of Rust's standard library that the modelled code relies on:
 * `to_lowercase`, `to_uppercase`, `eq_ignore_ascii_case`, `trim`, `contains`,
 * `starts_with` and the decimal formatting of integers.  Strings are sequences of
 * Unicode scalar values, as Rust's `char`s are.
 */
module Text {

  /**
   * Lower-case mapping of one character, as far as it matters here: every
   * comparison made after `to_lowercase` is against an ASCII literal, and the only
   * characters whose lower-case form is ASCII are 'A'..'Z' and U+212A KELVIN SIGN,
   * which lower-cases to 'k'.  Other characters are kept as they are (they stay
   * non-ASCII either way).
   */
  function LowerChar(c: char): (r: char)
    ensures 'A' <= c <= 'Z' ==> r as int == c as int + 32
    ensures c == '\U{212A}' ==> r == 'k'
    ensures !('A' <= c <= 'Z') && c != '\U{212A}' ==> r == c
  {
    if 'A' <= c <= 'Z' then (c as int + 32) as char
    else if c == '\U{212A}' then 'k'
    else c
  }

  /** `str::to_lowercase`, character by character. */
  function ToLower(s: string): (r: string)
    ensures |r| == |s|
    ensures forall i :: 0 <= i < |s| ==> r[i] == LowerChar(s[i])
  {
    seq(|s|, i requires 0 <= i < |s| => LowerChar(s[i]))
  }

  /** A string with no upper-case letter is its own lower-case form. */
  lemma LowerOfLower(s: string)
    requires forall i :: 0 <= i < |s| ==> !('A' <= s[i] <= 'Z') && s[i] != '\U{212A}'
    ensures ToLower(s) == s
  {
  }

  /** Lower-casing twice is lower-casing once. */
  lemma ToLowerIdempotent(s: string)
    ensures ToLower(ToLower(s)) == ToLower(s)
  {
  }

  /** `u8::to_ascii_lowercase` lifted to characters: only 'A'..'Z' change. */
  function AsciiLower(c: char): char {
    if 'A' <= c <= 'Z' then (c as int + 32) as char else c
  }

  /**
   * `str::to_uppercase` restricted to the ASCII letters: 'a'..'z' become 'A'..'Z' and
   * every other character is kept as it is. Rust also upper-cases non-ASCII letters,
   * some of them into several characters ('\u{DF}' becomes "SS"); that is not modelled.
   */
  function AsciiUpper(c: char): char {
    if 'a' <= c <= 'z' then (c as int - 32) as char else c
  }

  /** `str::to_uppercase` as far as `AsciiUpper` models it, character by character. */
  function ToUpper(s: string): (r: string)
    ensures |r| == |s|
    ensures forall i :: 0 <= i < |s| ==> r[i] == AsciiUpper(s[i])
  {
    seq(|s|, i requires 0 <= i < |s| => AsciiUpper(s[i]))
  }

  /** Upper-casing a string with no upper-case letter and lower-casing it again gives it back. */
  lemma LowerOfUpper(s: string)
    requires forall i :: 0 <= i < |s| ==> !('A' <= s[i] <= 'Z') && s[i] != '\U{212A}'
    ensures ToLower(ToUpper(s)) == s
  {
  }

  /**
   * `str::eq_ignore_ascii_case`: equal length and equal after ASCII lower-casing.
   * Rust compares UTF-8 bytes; a non-ASCII character's bytes are all above 0x7F and
   * unaffected by ASCII lower-casing, so comparing characters is the same test.
   */
  predicate EqIgnoreAsciiCase(a: string, b: string) {
    |a| == |b| && forall i :: 0 <= i < |a| ==> AsciiLower(a[i]) == AsciiLower(b[i])
  }

  /** `char::is_whitespace`: the Unicode White_Space property. */
  predicate IsWhitespace(c: char) {
    ('\t' <= c <= '\r') || c == ' ' || c == '\U{0085}' || c == '\U{00A0}' ||
    c == '\U{1680}' || ('\U{2000}' <= c <= '\U{200A}') || c == '\U{2028}' ||
    c == '\U{2029}' || c == '\U{202F}' || c == '\U{205F}' || c == '\U{3000}'
  }

  /** `str::trim_start`: the longest suffix that does not start with whitespace. */
  function TrimStart(s: string): (r: string)
    ensures |r| <= |s| && r == s[|s| - |r|..]
    ensures forall i :: 0 <= i < |s| - |r| ==> IsWhitespace(s[i])
    ensures r == [] || !IsWhitespace(r[0])
  {
    if |s| > 0 && IsWhitespace(s[0]) then TrimStart(s[1..]) else s
  }

  /** `str::trim_end`: the longest prefix that does not end with whitespace. */
  function TrimEnd(s: string): (r: string)
    ensures |r| <= |s| && r == s[..|r|]
    ensures forall i :: |r| <= i < |s| ==> IsWhitespace(s[i])
    ensures r == [] || !IsWhitespace(r[|r| - 1])
  {
    if |s| > 0 && IsWhitespace(s[|s| - 1]) then TrimEnd(s[..|s| - 1]) else s
  }

  /**
   * `str::trim`: a piece of `s` with no whitespace at either end, which is empty
   * exactly when `s` is all whitespace.
   */
  function Trim(s: string): (r: string)
    ensures |r| <= |s|
    ensures r == [] || (!IsWhitespace(r[0]) && !IsWhitespace(r[|r| - 1]))
    ensures r == [] <==> forall i :: 0 <= i < |s| ==> IsWhitespace(s[i])
  {
    var u := TrimStart(s);
    var t := TrimEnd(u);
    assert t != [] ==> t[0] == u[0];
    t
  }



  /** A string without whitespace at either end is its own trim. */
  lemma {:induction false} TrimOfTrimmed(s: string)
    requires s == [] || (!IsWhitespace(s[0]) && !IsWhitespace(s[|s| - 1]))
    ensures Trim(s) == s
  {
  }

  /** The result of `str::trim` has no whitespace at either end, so trimming twice is trimming once. */
  lemma TrimIdempotent(s: string)
    ensures var t := Trim(s); t == [] || (!IsWhitespace(t[0]) && !IsWhitespace(t[|t| - 1]))
    ensures Trim(Trim(s)) == Trim(s)
  {
    var u := TrimStart(s);
    var t := TrimEnd(u);
    if t != [] {
      assert t[0] == u[0];
    }
    TrimOfTrimmed(t);
  }

  /** Whitespace around a string that has none at its ends is exactly what trimming removes. */
  lemma TrimSurrounded(pre: string, t: string, post: string)
    requires forall i :: 0 <= i < |pre| ==> IsWhitespace(pre[i])
    requires forall i :: 0 <= i < |post| ==> IsWhitespace(post[i])
    requires t == [] || (!IsWhitespace(t[0]) && !IsWhitespace(t[|t| - 1]))
    ensures Trim(pre + t + post) == t
  {
    if t == [] {
      TrimStartDrops(pre + post, []);
      assert pre + t + post == (pre + post) + [];
    } else {
      TrimStartDrops(pre, t + post);
      assert pre + t + post == pre + (t + post);
      TrimEndDrops(t, post);
    }
  }

  /** Leading whitespace before a string that does not start with whitespace is what `trim_start` drops. */
  lemma TrimStartDrops(pre: string, u: string)
    requires forall i :: 0 <= i < |pre| ==> IsWhitespace(pre[i])
    requires u == [] || !IsWhitespace(u[0])
    ensures TrimStart(pre + u) == u
  {
    var s := pre + u;
    assert forall k :: 0 <= k < |pre| ==> s[k] == pre[k];
    if u != [] {
      assert s[|pre|] == u[0];
    }
  }

  /** Trailing whitespace after a string that does not end with whitespace is what `trim_end` drops. */
  lemma TrimEndDrops(u: string, post: string)
    requires forall i :: 0 <= i < |post| ==> IsWhitespace(post[i])
    requires u == [] || !IsWhitespace(u[|u| - 1])
    ensures TrimEnd(u + post) == u
  {
    var s := u + post;
    assert forall k :: |u| <= k < |s| ==> s[k] == post[k - |u|];
    if u != [] {
      assert s[|u| - 1] == u[|u| - 1];
    }
  }

  /** `str::contains` with a string pattern. */
  predicate Contains(s: string, pattern: string) {
    exists i | 0 <= i <= |s| - |pattern| :: OccursAt(s, pattern, i)
  }

  predicate OccursAt(s: string, pattern: string, i: int) {
    0 <= i <= |s| - |pattern| && s[i..i + |pattern|] == pattern
  }

  /** `str::starts_with`. */
  predicate StartsWith(s: string, prefix: string) {
    |prefix| <= |s| && s[..|prefix|] == prefix
  }

  function DigitChar(d: nat): char
    requires d < 10
  {
    "0123456789"[d]
  }

  /** Decimal rendering of an unsigned integer, as Rust's `Display` prints it. */
  function NatToString(n: nat): (r: string)
    ensures |r| >= 1
    ensures forall i :: 0 <= i < |r| ==> '0' <= r[i] <= '9'
    ensures n >= 10 ==> r[0] != '0'
  {
    if n < 10 then [DigitChar(n)] else NatToString(n / 10) + [DigitChar(n % 10)]
  }
}
