/** The few string operations the services rely on: ASCII lower-casing, Python's
    `str.strip()`, the substring test `needle in haystack`, and the decimal
    rendering of a natural number used in cache keys and day labels. */
module Text {

  /** The characters Python's `str.strip()` removes (`str.isspace()`). */
  predicate IsSpace(c: char) {
    || ('\t' <= c <= '\r')
    || ('\U{1C}' <= c <= ' ')
    || c == '\U{85}' || c == '\U{A0}' || c == '\U{1680}'
    || ('\U{2000}' <= c <= '\U{200A}')
    || c == '\U{2028}' || c == '\U{2029}' || c == '\U{202F}' || c == '\U{205F}' || c == '\U{3000}'
  }

  function LowerChar(c: char): char {
    if 'A' <= c <= 'Z' then (c as int - 'A' as int + 'a' as int) as char else c
  }

  /** `s.lower()`, restricted to the ASCII letters. */
  function Lower(s: string): (r: string)
    ensures |r| == |s|
  {
    seq(|s|, i requires 0 <= i < |s| => LowerChar(s[i]))
  }

  function TrimLeft(s: string): string {
    if |s| > 0 && IsSpace(s[0]) then TrimLeft(s[1..]) else s
  }

  function TrimRight(s: string): string {
    if |s| > 0 && IsSpace(s[|s| - 1]) then TrimRight(s[..|s| - 1]) else s
  }

  /** `s.strip()` */
  function Strip(s: string): string {
    TrimRight(TrimLeft(s))
  }

  /** `needle in haystack` for strings. */
  predicate Contains(haystack: string, needle: string) {
    |needle| <= |haystack| &&
    (haystack[..|needle|] == needle || Contains(haystack[1..], needle))
  }

  /** A word no whitespace can be part of, at either end. */
  predicate Word(w: string) {
    |w| > 0 && !IsSpace(w[0]) && !IsSpace(w[|w| - 1])
  }

  lemma {:induction false} ContainsAt(haystack: string, needle: string, i: nat)
    requires i + |needle| <= |haystack| && haystack[i..i + |needle|] == needle
    ensures Contains(haystack, needle)
  {
    if i > 0 {
      assert haystack[1..][i - 1..i - 1 + |needle|] == needle;
      ContainsAt(haystack[1..], needle, i - 1);
    }
  }

  /** `needle` occurs in `haystack` starting at index `i`. */
  predicate OccursAt(haystack: string, needle: string, i: int) {
    0 <= i && i + |needle| <= |haystack| && haystack[i..i + |needle|] == needle
  }

  /** The recursive substring test agrees with the positional definition. */
  lemma {:induction false} ContainsIff(haystack: string, needle: string)
    ensures Contains(haystack, needle) <==> exists i :: OccursAt(haystack, needle, i)
  {
    if Contains(haystack, needle) {
      if haystack[..|needle|] == needle {
        assert OccursAt(haystack, needle, 0);
      } else {
        ContainsIff(haystack[1..], needle);
        var j :| OccursAt(haystack[1..], needle, j);
        assert haystack[j + 1..j + 1 + |needle|] == haystack[1..][j..j + |needle|];
        assert OccursAt(haystack, needle, j + 1);
      }
    } else {
      forall i | OccursAt(haystack, needle, i)
        ensures false
      {
        ContainsAt(haystack, needle, i);
      }
    }
  }

  /** A needle with a character the haystack lacks is not in it. */
  lemma {:induction false} MissingCharNotContained(haystack: string, needle: string, c: char)
    requires c in needle && c !in haystack
    ensures !Contains(haystack, needle)
  {
    if |needle| <= |haystack| {
      assert c !in haystack[..|needle|];
      MissingCharNotContained(haystack[1..], needle, c);
    }
  }

  lemma {:induction false} TrimLeftKeepsWords(s: string, w: string)
    requires Word(w)
    ensures Contains(TrimLeft(s), w) <==> Contains(s, w)
  {
    if |s| > 0 && IsSpace(s[0]) {
      TrimLeftKeepsWords(s[1..], w);
      if |w| <= |s| {
        assert s[..|w|][0] == s[0];
      }
    }
  }

  lemma {:induction false} DropTrailingSpace(s: string, w: string)
    requires Word(w) && |s| > 0 && IsSpace(s[|s| - 1])
    ensures Contains(s[..|s| - 1], w) <==> Contains(s, w)
  {
    var t := s[..|s| - 1];
    if |w| == |s| {
      assert s[..|w|][|w| - 1] == s[|s| - 1];
      assert !Contains(s[1..], w);
    } else if |w| < |s| {
      assert s[..|w|] == t[..|w|];
      assert s[1..][..|s| - 2] == t[1..];
      DropTrailingSpace(s[1..], w);
    }
  }

  lemma {:induction false} TrimRightKeepsWords(s: string, w: string)
    requires Word(w)
    ensures Contains(TrimRight(s), w) <==> Contains(s, w)
  {
    if |s| > 0 && IsSpace(s[|s| - 1]) {
      TrimRightKeepsWords(s[..|s| - 1], w);
      DropTrailingSpace(s, w);
    }
  }

  /** Stripping surrounding whitespace never changes whether a word occurs. */
  lemma StripKeepsWords(s: string, w: string)
    requires Word(w)
    ensures Contains(Strip(s), w) <==> Contains(s, w)
  {
    TrimLeftKeepsWords(s, w);
    TrimRightKeepsWords(TrimLeft(s), w);
  }

  lemma {:induction false} LowerTrimLeft(s: string)
    ensures Lower(TrimLeft(s)) == TrimLeft(Lower(s))
  {
    if |s| > 0 {
      assert Lower(s)[0] == LowerChar(s[0]);
      assert Lower(s[1..]) == Lower(s)[1..];
      if IsSpace(s[0]) {
        LowerTrimLeft(s[1..]);
      }
    }
  }

  lemma {:induction false} LowerTrimRight(s: string)
    ensures Lower(TrimRight(s)) == TrimRight(Lower(s))
  {
    if |s| > 0 {
      assert Lower(s)[|s| - 1] == LowerChar(s[|s| - 1]);
      assert Lower(s[..|s| - 1]) == Lower(s)[..|s| - 1];
      if IsSpace(s[|s| - 1]) {
        LowerTrimRight(s[..|s| - 1]);
      }
    }
  }

  /** Lower-casing twice is lower-casing once. */
  lemma LowerIdempotent(s: string)
    ensures Lower(Lower(s)) == Lower(s)
  {
    forall i | 0 <= i < |s|
      ensures Lower(Lower(s))[i] == Lower(s)[i]
    {
      assert LowerChar(LowerChar(s[i])) == LowerChar(s[i]);
    }
  }

  /** Lower-casing cannot produce a letter whose two cases are both absent. */
  lemma LowerLacks(s: string, c: char, upper: char)
    requires 'a' <= c <= 'z' && upper as int == c as int - 'a' as int + 'A' as int
    requires c !in s && upper !in s
    ensures c !in Lower(s)
  {
    forall i | 0 <= i < |s|
      ensures Lower(s)[i] != c
    {
      assert s[i] != c && s[i] != upper;
    }
  }

  /** `s.strip().lower()` finds exactly the words `s.lower()` does. */
  lemma StripLowerKeepsWords(s: string, w: string)
    requires Word(w)
    ensures Contains(Lower(Strip(s)), w) <==> Contains(Lower(s), w)
  {
    LowerTrimLeft(s);
    LowerTrimRight(TrimLeft(s));
    StripKeepsWords(Lower(s), w);
  }

  function DigitChar(d: nat): char
    requires d < 10
  {
    ('0' as int + d) as char
  }

  /** `str(n)` for a natural number. */
  function DecimalString(n: nat): (r: string)
    ensures |r| > 0
    ensures forall i :: 0 <= i < |r| ==> '0' <= r[i] <= '9'
  {
    if n < 10 then [DigitChar(n)] else DecimalString(n / 10) + [DigitChar(n % 10)]
  }

  /** `int(s)` for a string of decimal digits; the inverse of DecimalString. */
  function ParseDecimal(s: string): nat {
    if s == [] then 0
    else
      var d := s[|s| - 1] as int - '0' as int;
      ParseDecimal(s[..|s| - 1]) * 10 + (if 0 <= d < 10 then d else 0)
  }

  lemma {:induction false} ParseDecimalString(n: nat)
    ensures ParseDecimal(DecimalString(n)) == n
  {
    if n >= 10 {
      var s := DecimalString(n);
      assert s[..|s| - 1] == DecimalString(n / 10);
      ParseDecimalString(n / 10);
    }
  }

  /** Distinct numbers render as distinct strings, after any common prefix. */
  lemma PrefixedDecimalInjective(prefix: string, a: nat, b: nat)
    requires prefix + DecimalString(a) == prefix + DecimalString(b)
    ensures a == b
  {
    assert (prefix + DecimalString(a))[|prefix|..] == DecimalString(a);
    assert (prefix + DecimalString(b))[|prefix|..] == DecimalString(b);
    ParseDecimalString(a);
    ParseDecimalString(b);
  }
}
