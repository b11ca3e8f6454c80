/**
 * The JavaScript string built-ins the source uses. A `char` is a Unicode scalar value; `Utf16`
 * gives the UTF-16 code units that `length`, `split('')` and `charCodeAt` see, in which a
 * character outside the Basic Multilingual Plane is two surrogates.
 */
module Strings {

  /** JavaScript's `\s` class and what `trim` removes: WhiteSpace and LineTerminator code points. */
  predicate IsWhitespace(c: char) {
    var n := c as int;
    n == 9 || n == 10 || n == 11 || n == 12 || n == 13 || n == 32 || n == 0xA0 || n == 0x1680
    || (0x2000 <= n <= 0x200A) || n == 0x2028 || n == 0x2029 || n == 0x202F || n == 0x205F
    || n == 0x3000 || n == 0xFEFF
  }

  predicate NoWhitespace(s: string) {
    forall i :: 0 <= i < |s| ==> !IsWhitespace(s[i])
  }

  /** `s.trimStart()`. */
  function TrimStart(s: string): string {
    if s != [] && IsWhitespace(s[0]) then TrimStart(s[1..]) else s
  }

  /** `trimStart` drops the leading run of whitespace and nothing else. */
  lemma {:induction false} TrimStartSpec(s: string)
    ensures |TrimStart(s)| <= |s| && TrimStart(s) == s[|s| - |TrimStart(s)|..]
    ensures forall i :: 0 <= i < |s| - |TrimStart(s)| ==> IsWhitespace(s[i])
    ensures TrimStart(s) == [] || !IsWhitespace(TrimStart(s)[0])
  {
    if s != [] && IsWhitespace(s[0]) {
      TrimStartSpec(s[1..]);
      var r := TrimStart(s);
      assert s[1..][|s| - 1 - |r|..] == s[|s| - |r|..];
      forall i | 0 <= i < |s| - |r|
        ensures IsWhitespace(s[i])
      {
        if i > 0 {
          assert s[i] == s[1..][i - 1];
        }
      }
    }
  }

  /** `s.trimEnd()`. */
  function TrimEnd(s: string): string {
    if s != [] && IsWhitespace(s[|s| - 1]) then TrimEnd(s[..|s| - 1]) else s
  }

  /** `trimEnd` drops the trailing run of whitespace and nothing else. */
  lemma {:induction false} TrimEndSpec(s: string)
    ensures |TrimEnd(s)| <= |s| && TrimEnd(s) == s[..|TrimEnd(s)|]
    ensures forall i :: |TrimEnd(s)| <= i < |s| ==> IsWhitespace(s[i])
    ensures TrimEnd(s) == [] || !IsWhitespace(TrimEnd(s)[|TrimEnd(s)| - 1])
  {
    if s != [] && IsWhitespace(s[|s| - 1]) {
      var p := s[..|s| - 1];
      TrimEndSpec(p);
      var r := TrimEnd(s);
      assert p[..|r|] == s[..|r|];
      forall i | |r| <= i < |s|
        ensures IsWhitespace(s[i])
      {
        if i < |s| - 1 {
          assert s[i] == p[i];
        }
      }
    }
  }

  /** `s.trim()`. */
  function Trim(s: string): string {
    TrimEnd(TrimStart(s))
  }

  /**
   * `trim` keeps the part of the string after the leading whitespace `trimStart` drops, neither starting nor ending with whitespace,
   * and every character it drops is whitespace; the result is empty exactly when all of the
   * string is whitespace.
   */
  lemma TrimSpec(s: string)
    ensures var k := |s| - |TrimStart(s)|;
            0 <= k && k + |Trim(s)| <= |s| && Trim(s) == s[k..k + |Trim(s)|]
            && (forall i :: 0 <= i < k ==> IsWhitespace(s[i]))
            && (forall i :: k + |Trim(s)| <= i < |s| ==> IsWhitespace(s[i]))
    ensures Trim(s) == [] || (!IsWhitespace(Trim(s)[0]) && !IsWhitespace(Trim(s)[|Trim(s)| - 1]))
    ensures Trim(s) == [] <==> forall i :: 0 <= i < |s| ==> IsWhitespace(s[i])
  {
    var t := TrimStart(s);
    var r := Trim(s);
    TrimStartSpec(s);
    TrimEndSpec(t);
    var k := |s| - |t|;
    assert r == t[..|r|];
    assert r == s[k..k + |r|];
    forall i | k + |r| <= i < |s|
      ensures IsWhitespace(s[i])
    {
      assert s[i] == t[i - k];
    }
    if r != [] {
      assert r[0] == t[0];
    }
    if r == [] {
      assert t == [];
    } else {
      assert !IsWhitespace(s[k]);
    }
  }

  /** Trimming a string that has no whitespace at either end changes nothing; so `Trim` is idempotent. */
  lemma TrimIdempotent(s: string)
    ensures Trim(Trim(s)) == Trim(s)
  {
    TrimSpec(s);
    TrimFixed(Trim(s));
  }

  /** A string that neither starts nor ends with whitespace is its own trim. */
  lemma TrimFixed(t: string)
    requires t == [] || (!IsWhitespace(t[0]) && !IsWhitespace(t[|t| - 1]))
    ensures Trim(t) == t
  {
    assert TrimStart(t) == t;
    assert TrimEnd(t) == t;
  }

  /** `s.split(sep)` for a one-character separator: `""` yields `[""]`. */
  function SplitOn(s: string, sep: char): (r: seq<string>)
    ensures |r| >= 1
    ensures forall i :: 0 <= i < |r| ==> sep !in r[i]
  {
    if s == [] then [""]
    else if s[0] == sep then [""] + SplitOn(s[1..], sep)
    else
      var t := SplitOn(s[1..], sep);
      [[s[0]] + t[0]] + t[1..]
  }

  /** `s.split(/\s+/)`: the pieces between runs of whitespace, with an empty piece at an end that is whitespace. */
  function SplitWhitespace(s: string): (r: seq<string>)
    ensures |r| >= 1
    ensures forall i :: 0 <= i < |r| ==> NoWhitespace(r[i])
  {
    if s == [] then [""]
    else if IsWhitespace(s[0]) then
      TrimStartSpec(s[1..]);
      [""] + SplitWhitespace(TrimStart(s))
    else
      var t := SplitWhitespace(s[1..]);
      [[s[0]] + t[0]] + t[1..]
  }

  /** `xs.join(sep)`. */
  function Join(xs: seq<string>, sep: string): string {
    if |xs| == 0 then ""
    else if |xs| == 1 then xs[0]
    else xs[0] + sep + Join(xs[1..], sep)
  }

  lemma {:induction false} SplitOnNoSeparator(t: string, sep: char)
    requires sep !in t
    ensures SplitOn(t, sep) == [t]
  {
    if t != [] {
      SplitOnNoSeparator(t[1..], sep);
      assert [t[0]] + t[1..] == t;
    }
  }

  lemma {:induction false} SplitOnAfter(t: string, sep: char, u: string)
    requires sep !in t
    ensures SplitOn(t + [sep] + u, sep) == [t] + SplitOn(u, sep)
  {
    if t == [] {
      assert (t + [sep] + u)[1..] == u;
    } else {
      assert (t + [sep] + u)[1..] == t[1..] + [sep] + u;
      SplitOnAfter(t[1..], sep, u);
      assert [t[0]] + t[1..] == t;
    }
  }

  /** Splitting undoes joining, when no piece holds the separator. */
  lemma {:induction false} SplitOnJoin(xs: seq<string>, sep: char)
    requires |xs| >= 1
    requires forall i :: 0 <= i < |xs| ==> sep !in xs[i]
    ensures SplitOn(Join(xs, [sep]), sep) == xs
  {
    if |xs| == 1 {
      SplitOnNoSeparator(xs[0], sep);
    } else {
      SplitOnJoin(xs[1..], sep);
      SplitOnAfter(xs[0], sep, Join(xs[1..], [sep]));
      assert [xs[0]] + xs[1..] == xs;
    }
  }

  lemma {:induction false} SplitWhitespaceWord(w: string)
    requires NoWhitespace(w)
    ensures SplitWhitespace(w) == [w]
  {
    if w != [] {
      SplitWhitespaceWord(w[1..]);
      assert [w[0]] + w[1..] == w;
    }
  }

  lemma {:induction false} SplitWhitespaceAfter(w: string, u: string)
    requires NoWhitespace(w)
    requires u == [] || !IsWhitespace(u[0])
    ensures SplitWhitespace(w + " " + u) == [w] + SplitWhitespace(u)
  {
    if w == [] {
      assert w + " " + u == [' '] + u;
      assert ([' '] + u)[1..] == u;
      assert TrimStart([' '] + u) == TrimStart(u) == u;
    } else {
      assert (w + " " + u)[1..] == w[1..] + " " + u;
      SplitWhitespaceAfter(w[1..], u);
      assert [w[0]] + w[1..] == w;
    }
  }

  lemma {:induction false} JoinStartsWithFirst(xs: seq<string>, sep: string)
    requires |xs| >= 1 && |xs[0]| >= 1
    ensures |Join(xs, sep)| >= 1 && Join(xs, sep)[0] == xs[0][0]
  {
  }

  /** Splitting on whitespace undoes joining with single spaces, when the words are non-empty and hold no whitespace. */
  lemma {:induction false} SplitWhitespaceJoin(words: seq<string>)
    requires |words| >= 1
    requires forall i :: 0 <= i < |words| ==> words[i] != [] && NoWhitespace(words[i])
    ensures SplitWhitespace(Join(words, " ")) == words
  {
    if |words| == 1 {
      SplitWhitespaceWord(words[0]);
    } else {
      SplitWhitespaceJoin(words[1..]);
      JoinStartsWithFirst(words[1..], " ");
      SplitWhitespaceAfter(words[0], Join(words[1..], " "));
      assert [words[0]] + words[1..] == words;
    }
  }

  /** `toLowerCase` on the ASCII letters; every other character is kept. */
  function LowerChar(c: char): char {
    if 'A' <= c <= 'Z' then (c as int + 32) as char else c
  }

  function ToLower(s: string): (r: string)
    ensures |r| == |s|
    ensures forall i :: 0 <= i < |r| ==> !('A' <= r[i] <= 'Z')
    ensures forall i :: 0 <= i < |r| ==> IsWhitespace(r[i]) == IsWhitespace(s[i])
  {
    seq(|s|, i requires 0 <= i < |s| => LowerChar(s[i]))
  }

  predicate StartsWith(s: string, prefix: string) {
    |prefix| <= |s| && s[..|prefix|] == prefix
  }

  function DigitChar(d: nat): char
    requires d < 10
  {
    ('0' as int + d) as char
  }

  /** The decimal numeral of `n`, as template literals print a non-negative integer. */
  function NatToDecimal(n: nat): (r: string)
    ensures |r| >= 1
    ensures forall i :: 0 <= i < |r| ==> '0' <= r[i] <= '9'
    ensures n > 0 ==> r[0] != '0'
  {
    if n < 10 then [DigitChar(n)] else NatToDecimal(n / 10) + [DigitChar(n % 10)]
  }

  /** The value of a string of decimal digits. */
  function DecimalValue(s: string): nat
    requires forall i :: 0 <= i < |s| ==> '0' <= s[i] <= '9'
  {
    if s == [] then 0 else DecimalValue(s[..|s| - 1]) * 10 + (s[|s| - 1] as int - '0' as int)
  }

  /** Reading back a printed numeral gives the number. */
  lemma {:induction false} DecimalRoundTrip(n: nat)
    ensures DecimalValue(NatToDecimal(n)) == n
  {
    if n >= 10 {
      DecimalRoundTrip(n / 10);
      var r := NatToDecimal(n);
      assert r[..|r| - 1] == NatToDecimal(n / 10);
    }
  }

  // ---------------------------------------------------------------------------------------
  // UTF-16

  /** A UTF-16 code unit, what `charCodeAt` returns. */
  predicate IsCodeUnit(x: int) {
    0 <= x < 0x1_0000
  }

  /** A character outside the Basic Multilingual Plane, which UTF-16 writes as two code units. */
  predicate IsAstral(c: char) {
    c as int >= 0x1_0000
  }

  /** The UTF-16 encoding of one character: its code point, or a high and then a low surrogate. */
  function CodeUnitsOf(c: char): (r: seq<int>)
    ensures |r| == if IsAstral(c) then 2 else 1
    ensures !IsAstral(c) ==> r[0] == c as int
    ensures IsAstral(c) ==> 0xD800 <= r[0] < 0xDC00 <= r[1] < 0xE000
    ensures forall i :: 0 <= i < |r| ==> IsCodeUnit(r[i])
  {
    var n := c as int;
    if n < 0x1_0000 then [n]
    else [0xD800 + (n - 0x1_0000) / 0x400, 0xDC00 + (n - 0x1_0000) % 0x400]
  }

  /** The code point a high and a low surrogate stand for. */
  function FromSurrogates(high: int, low: int): int {
    0x1_0000 + (high - 0xD800) * 0x400 + (low - 0xDC00)
  }

  /** Decoding a character's surrogate pair gives the character back. */
  lemma SurrogatesRoundTrip(c: char)
    requires IsAstral(c)
    ensures FromSurrogates(CodeUnitsOf(c)[0], CodeUnitsOf(c)[1]) == c as int
  {
    var m := c as int - 0x1_0000;
    assert m == m / 0x400 * 0x400 + m % 0x400;
  }

  /** The code units of a string, first to last. */
  function Utf16(s: string): seq<int> {
    if s == [] then [] else Utf16(s[..|s| - 1]) + CodeUnitsOf(s[|s| - 1])
  }

  /** Every element of `Utf16(s)` is a code unit. */
  lemma {:induction false} Utf16AreCodeUnits(s: string)
    ensures forall i :: 0 <= i < |Utf16(s)| ==> IsCodeUnit(Utf16(s)[i])
  {
    if s != [] {
      Utf16AreCodeUnits(s[..|s| - 1]);
      var pre := Utf16(s[..|s| - 1]);
      var last := CodeUnitsOf(s[|s| - 1]);
      assert forall i :: 0 <= i < |Utf16(s)| ==> Utf16(s)[i] == if i < |pre| then pre[i] else last[i - |pre|];
    }
  }

  /** `s.length`: the number of code units. */
  function Length(s: string): nat {
    |Utf16(s)|
  }

  /**
   * `length` counts each character once and each astral character twice, so it equals the
   * number of characters exactly when none is astral.
   */
  lemma {:induction false} LengthCountsAstralTwice(s: string)
    ensures |s| <= Length(s) <= 2 * |s|
    ensures Length(s) == |s| <==> forall i :: 0 <= i < |s| ==> !IsAstral(s[i])
  {
    if s != [] {
      var pre := s[..|s| - 1];
      LengthCountsAstralTwice(pre);
      assert Length(s) == Length(pre) + |CodeUnitsOf(s[|s| - 1])|;
      forall i | 0 <= i < |pre|
        ensures pre[i] == s[i]
      {
      }
    }
  }
}
