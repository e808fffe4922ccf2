/**
 * The java.lang.String operations the bank uses, on strings as sequences of
 * chars: zero-padded decimal formatting (String.format("%0Nd")), digit
 * filtering and parsing, ASCII case folding, searching and trimming.
 */
module Text {

  predicate IsDigit(c: char) {
    '0' <= c <= '9'
  }

  predicate AllDigits(s: string) {
    forall i :: 0 <= i < |s| ==> IsDigit(s[i])
  }

  function DigitChar(d: nat): (c: char)
    requires d < 10
    ensures IsDigit(c)
  {
    ['0', '1', '2', '3', '4', '5', '6', '7', '8', '9'][d]
  }

  function DigitValue(c: char): (d: nat)
    requires IsDigit(c)
    ensures d < 10
  {
    (c as int - '0' as int) as nat
  }

  lemma DigitRoundTrip(d: nat)
    requires d < 10
    ensures DigitValue(DigitChar(d)) == d
  {
  }

  /** The decimal digits of n, without leading zeros ("0" for zero). */
  function Decimal(n: nat): (s: string)
    ensures |s| >= 1 && AllDigits(s)
    decreases n
  {
    if n < 10 then [DigitChar(n)] else Decimal(n / 10) + [DigitChar(n % 10)]
  }

  /** The number a string of decimal digits denotes. */
  function DigitsValue(s: string): nat
    requires AllDigits(s)
    decreases |s|
  {
    if s == [] then 0 else DigitsValue(s[..|s| - 1]) * 10 + DigitValue(s[|s| - 1])
  }

  function Repeat(c: char, n: nat): (s: string)
    ensures |s| == n && forall i :: 0 <= i < n ==> s[i] == c
  {
    if n == 0 then [] else [c] + Repeat(c, n - 1)
  }

  /** String.format("%0" + width + "d", n) for a non-negative n. */
  function ZeroPad(n: nat, width: nat): (s: string)
    ensures AllDigits(s)
  {
    var digits := Decimal(n);
    if |digits| >= width then digits else Repeat('0', width - |digits|) + digits
  }

  function Pow10(n: nat): (r: nat)
    ensures r >= 1
  {
    if n == 0 then 1 else 10 * Pow10(n - 1)
  }

  /** Decimal never needs more digits than the magnitude of n calls for. */
  lemma {:induction false} DecimalLength(n: nat, width: nat)
    requires n < Pow10(width)
    ensures |Decimal(n)| <= width || (n == 0 && width == 0)
    decreases n
  {
    if n >= 10 {
      assert width >= 1;
      DecimalLength(n / 10, width - 1);
    }
  }

  /** A number of at least 10^width needs more than `width` digits. */
  lemma {:induction false} DecimalLengthAbove(n: nat, width: nat)
    requires n >= Pow10(width)
    ensures |Decimal(n)| > width
    decreases n
  {
    if width > 0 {
      assert n >= 10 && n / 10 >= Pow10(width - 1);
      DecimalLengthAbove(n / 10, width - 1);
    }
  }

  /** Decimal and DigitsValue are inverse. */
  lemma {:induction false} DecimalValue(n: nat)
    ensures DigitsValue(Decimal(n)) == n
    decreases n
  {
    var s := Decimal(n);
    if n < 10 {
      DigitRoundTrip(n);
    } else {
      DecimalValue(n / 10);
      DigitRoundTrip(n % 10);
      assert s[..|s| - 1] == Decimal(n / 10);
    }
  }

  /** Leading zeros do not change the value of a digit string. */
  lemma {:induction false} LeadingZeros(k: nat, s: string)
    requires AllDigits(s)
    ensures AllDigits(Repeat('0', k) + s) && DigitsValue(Repeat('0', k) + s) == DigitsValue(s)
    decreases |s|
  {
    var t := Repeat('0', k) + s;
    if s == [] {
      assert t == Repeat('0', k);
      ZerosValue(k);
    } else {
      assert t[..|t| - 1] == Repeat('0', k) + s[..|s| - 1];
      LeadingZeros(k, s[..|s| - 1]);
    }
  }

  lemma {:induction false} ZerosValue(k: nat)
    ensures DigitsValue(Repeat('0', k)) == 0
    decreases k
  {
    if k > 0 {
      var z := Repeat('0', k);
      assert z[..k - 1] == Repeat('0', k - 1);
      ZerosValue(k - 1);
    }
  }

  /**
   * A zero-padded number is exactly `width` digits long when it fits, and it
   * reads back as the number, so distinct numbers never share a padding.
   */
  lemma {:induction false} ZeroPadRoundTrip(n: nat, width: nat)
    ensures DigitsValue(ZeroPad(n, width)) == n
    ensures n < Pow10(width) && width >= 1 ==> |ZeroPad(n, width)| == width
    ensures |ZeroPad(n, width)| >= width
  {
    DecimalValue(n);
    var digits := Decimal(n);
    if |digits| < width {
      assert ZeroPad(n, width) == Repeat('0', width - |digits|) + digits;
      LeadingZeros(width - |digits|, digits);
    } else {
      assert ZeroPad(n, width) == digits;
    }
    if n < Pow10(width) && width >= 1 {
      DecimalLength(n, width);
    }
  }

  lemma ZeroPadInjective(a: nat, b: nat, width: nat)
    requires ZeroPad(a, width) == ZeroPad(b, width)
    ensures a == b
  {
    ZeroPadRoundTrip(a, width);
    ZeroPadRoundTrip(b, width);
  }

  /** String.replaceAll("[^0-9]", ""): the ASCII digits of s, in order. */
  function DigitsOnly(s: string): (r: string)
    ensures AllDigits(r) && |r| <= |s|
  {
    if s == [] then [] else (if IsDigit(s[0]) then [s[0]] else []) + DigitsOnly(s[1..])
  }

  /** Dropping the non-digits of a concatenation drops them from each part. */
  lemma {:induction false} DigitsOnlyAppend(a: string, b: string)
    ensures DigitsOnly(a + b) == DigitsOnly(a) + DigitsOnly(b)
    decreases |a|
  {
    if a != [] {
      assert (a + b)[1..] == a[1..] + b;
      DigitsOnlyAppend(a[1..], b);
    } else {
      assert a + b == b;
    }
  }

  /** A string without digits loses all of its characters. */
  lemma {:induction false} DigitsOnlyOfNonDigits(s: string)
    requires forall i :: 0 <= i < |s| ==> !IsDigit(s[i])
    ensures DigitsOnly(s) == []
    decreases |s|
  {
    if s != [] {
      DigitsOnlyOfNonDigits(s[1..]);
    }
  }

  /** A string of digits keeps all of its characters. */
  lemma {:induction false} DigitsOnlyOfDigits(s: string)
    requires AllDigits(s)
    ensures DigitsOnly(s) == s
    decreases |s|
  {
    if s != [] {
      DigitsOnlyOfDigits(s[1..]);
    }
  }

  /**
   * Character.toUpperCase on code points, for the blocks whose case pairs the
   * model carries: Basic Latin, Latin-1, Latin Extended-A, the Greek letters
   * and symbols that fold to them, and the basic Cyrillic alphabet. Any other
   * code point maps to itself.
   */
  function UpperCode(n: int): (m: int)
    ensures 0 <= n < 0x1_0000 ==> 0 <= m < 0x1_0000
    ensures 0xD800 <= m < 0xE000 <==> 0xD800 <= n < 0xE000
  {
    if 0x61 <= n <= 0x7A then n - 32
    else if n == 0xB5 then 0x39C
    else if 0xE0 <= n <= 0xFE && n != 0xF7 then n - 32
    else if n == 0xFF then 0x178
    else if 0x100 <= n <= 0x12F && n % 2 == 1 then n - 1
    else if n == 0x131 then 0x49
    else if 0x132 <= n <= 0x137 && n % 2 == 1 then n - 1
    else if 0x139 <= n <= 0x148 && n % 2 == 0 then n - 1
    else if 0x14A <= n <= 0x177 && n % 2 == 1 then n - 1
    else if 0x179 <= n <= 0x17E && n % 2 == 0 then n - 1
    else if n == 0x17F then 0x53
    else if n == 0x345 then 0x399
    else if n == 0x3AC then 0x386
    else if 0x3AD <= n <= 0x3AF then n - 37
    else if 0x3B1 <= n <= 0x3C1 then n - 32
    else if n == 0x3C2 then 0x3A3
    else if 0x3C3 <= n <= 0x3CB then n - 32
    else if n == 0x3CC then 0x38C
    else if 0x3CD <= n <= 0x3CE then n - 63
    else if n == 0x3D0 then 0x392
    else if n == 0x3D1 then 0x398
    else if n == 0x3D5 then 0x3A6
    else if n == 0x3D6 then 0x3A0
    else if n == 0x3F0 then 0x39A
    else if n == 0x3F1 then 0x3A1
    else if n == 0x3F5 then 0x395
    else if 0x430 <= n <= 0x44F then n - 32
    else if 0x450 <= n <= 0x45F then n - 80
    else n
  }

  /** Character.toLowerCase on code points, over the same blocks as UpperCode. */
  function LowerCode(n: int): (m: int)
    ensures 0 <= n < 0x1_0000 ==> 0 <= m < 0x1_0000
    ensures 0xD800 <= m < 0xE000 <==> 0xD800 <= n < 0xE000
  {
    if 0x41 <= n <= 0x5A then n + 32
    else if 0xC0 <= n <= 0xDE && n != 0xD7 then n + 32
    else if 0x100 <= n <= 0x12F && n % 2 == 0 then n + 1
    else if n == 0x130 then 0x69
    else if 0x132 <= n <= 0x137 && n % 2 == 0 then n + 1
    else if 0x139 <= n <= 0x148 && n % 2 == 1 then n + 1
    else if 0x14A <= n <= 0x177 && n % 2 == 0 then n + 1
    else if n == 0x178 then 0xFF
    else if 0x179 <= n <= 0x17E && n % 2 == 1 then n + 1
    else if n == 0x386 then 0x3AC
    else if 0x388 <= n <= 0x38A then n + 37
    else if n == 0x38C then 0x3CC
    else if 0x38E <= n <= 0x38F then n + 63
    else if 0x391 <= n <= 0x3A1 then n + 32
    else if 0x3A3 <= n <= 0x3AB then n + 32
    else if n == 0x3F4 then 0x3B8
    else if 0x400 <= n <= 0x40F then n + 80
    else if 0x410 <= n <= 0x42F then n + 32
    else if n == 0x1E9E then 0xDF
    else if n == 0x2126 then 0x3C9
    else if n == 0x212A then 0x6B
    else if n == 0x212B then 0xE5
    else n
  }

  /** Character.toUpperCase. */
  function UpperCase(c: char): char {
    if c as int < 0x1_0000 then UpperCode(c as int) as char else c
  }

  /** Character.toLowerCase. */
  function LowerCase(c: char): char {
    if c as int < 0x1_0000 then LowerCode(c as int) as char else c
  }

  /** The key equalsIgnoreCase ends up comparing: the lower case of the upper case. */
  function Fold(c: char): char {
    LowerCase(UpperCase(c))
  }

  /**
   * The per-character test of String.equalsIgnoreCase: the same character,
   * the same upper case, or the same lower case of the upper cases.
   */
  predicate CharsEqualIgnoreCase(x: char, y: char) {
    x == y || UpperCase(x) == UpperCase(y) || Fold(x) == Fold(y)
  }

  /** String.equalsIgnoreCase: equal lengths and matching characters throughout. */
  predicate EqualsIgnoreCase(a: string, b: string) {
    |a| == |b| && forall i :: 0 <= i < |a| ==> CharsEqualIgnoreCase(a[i], b[i])
  }

  /**
   * Java's three-way test comes down to comparing the folds, so ignoring case
   * is an equivalence on characters and on strings.
   */
  lemma EqualsIgnoreCaseEquivalence(a: string, b: string, c: string)
    ensures forall x: char, y: char :: CharsEqualIgnoreCase(x, y) <==> Fold(x) == Fold(y)
    ensures EqualsIgnoreCase(a, a)
    ensures EqualsIgnoreCase(a, b) ==> EqualsIgnoreCase(b, a)
    ensures EqualsIgnoreCase(a, b) && EqualsIgnoreCase(b, c) ==> EqualsIgnoreCase(a, c)
  {
    if EqualsIgnoreCase(a, b) && EqualsIgnoreCase(b, c) {
      forall i | 0 <= i < |a|
        ensures CharsEqualIgnoreCase(a[i], c[i])
      {
        assert CharsEqualIgnoreCase(b[i], c[i]);
      }
    }
  }

  /**
   * The characters equalsIgnoreCase accepts for a lower-case ASCII letter c:
   * c itself, its capital, and the non-ASCII letters that fold to it (the
   * long s for s, the Kelvin sign for k, the dotless i and the dotted
   * capital I for i).
   */
  predicate AsciiLetterVariant(c: char, x: char) {
    x == c || x as int == c as int - 32 ||
    (c == 's' && x == '\U{017F}') ||
    (c == 'k' && x == '\U{212A}') ||
    (c == 'i' && (x == '\U{0130}' || x == '\U{0131}'))
  }

  /** A lower-case ASCII letter matches exactly its variants. */
  lemma AsciiLetterIgnoreCase(c: char, x: char)
    requires 'a' <= c <= 'z'
    ensures CharsEqualIgnoreCase(c, x) <==> AsciiLetterVariant(c, x)
  {
    EqualsIgnoreCaseEquivalence([], [], []);
  }

  /** s spells the word w letter by letter, each letter by one of its variants. */
  predicate SpelledWithVariants(w: string, s: string) {
    |s| == |w| && forall i :: 0 <= i < |w| ==> AsciiLetterVariant(w[i], s[i])
  }

  /** A word of lower-case ASCII letters equals, ignoring case, exactly the strings spelling it with variants. */
  lemma AsciiWordIgnoreCase(w: string, s: string)
    requires forall i :: 0 <= i < |w| ==> 'a' <= w[i] <= 'z'
    ensures EqualsIgnoreCase(w, s) <==> SpelledWithVariants(w, s)
  {
    forall i | 0 <= i < |w| && i < |s|
      ensures CharsEqualIgnoreCase(w[i], s[i]) <==> AsciiLetterVariant(w[i], s[i])
    {
      AsciiLetterIgnoreCase(w[i], s[i]);
    }
  }

  /** Beyond ASCII: Greek capitals match their small letters, and the long s matches s. */
  lemma IgnoreCaseExamples()
    ensures EqualsIgnoreCase("\U{0394}\U{0395}\U{0397}", "\U{03B4}\U{03B5}\U{03B7}")
    ensures EqualsIgnoreCase("success", "\U{017F}uccess")
    ensures EqualsIgnoreCase("\U{03A3}", "\U{03C2}")
    ensures !EqualsIgnoreCase("true", "false")
  {
    var greek := "\U{0394}\U{0395}\U{0397}";
    var small := "\U{03B4}\U{03B5}\U{03B7}";
    assert Fold(greek[0]) == Fold(small[0]);
    assert Fold(greek[1]) == Fold(small[1]);
    assert Fold(greek[2]) == Fold(small[2]);
    AsciiWordIgnoreCase("success", "\U{017F}uccess");
    assert Fold('\U{03A3}') == Fold('\U{03C2}');
  }

  predicate StartsWith(s: string, prefix: string) {
    |prefix| <= |s| && s[..|prefix|] == prefix
  }

  /** Whether pattern occurs in s starting at position i. */
  predicate OccursAt(s: string, pattern: string, i: int) {
    0 <= i && i + |pattern| <= |s| && s[i..i + |pattern|] == pattern
  }

  /** String.indexOf(pattern, from): the first position >= from where pattern occurs, or -1. */
  function IndexOf(s: string, pattern: string, from: nat): (r: int)
    ensures r == -1 || (from <= r && OccursAt(s, pattern, r))
    ensures r != -1 ==> forall j :: from <= j < r ==> !OccursAt(s, pattern, j)
    ensures r == -1 ==> forall j :: from <= j ==> !OccursAt(s, pattern, j)
    decreases |s| - from
  {
    if from + |pattern| > |s| then -1
    else if s[from..from + |pattern|] == pattern then from
    else IndexOf(s, pattern, from + 1)
  }

  /** Whether s contains the character c. */
  predicate ContainsChar(s: string, c: char) {
    exists i :: 0 <= i < |s| && s[i] == c
  }

  /** A character String.trim() removes: U+0020 or below. */
  predicate IsBlank(c: char) {
    c <= ' '
  }

  /** String.trim(): drop leading and trailing characters up to U+0020. */
  function Trim(s: string): (r: string)
    ensures |r| <= |s|
    ensures |r| > 0 ==> !IsBlank(r[0]) && !IsBlank(r[|r| - 1])
  {
    TrimEnd(TrimStart(s))
  }

  /** The blank prefix of s dropped: a suffix of s that starts with a visible character. */
  function TrimStart(s: string): (r: string)
    ensures |r| <= |s| && (|r| > 0 ==> !IsBlank(r[0]))
    ensures r == s[|s| - |r|..]
  {
    if s != [] && IsBlank(s[0]) then TrimStart(s[1..]) else s
  }

  /** The blank suffix of s dropped: a prefix of s that ends with a visible character. */
  function TrimEnd(s: string): (r: string)
    ensures |r| <= |s| && (|r| > 0 ==> !IsBlank(r[|r| - 1]))
    ensures r == s[..|r|]
  {
    if s != [] && IsBlank(s[|s| - 1]) then TrimEnd(s[..|s| - 1]) else s
  }

  /** Everything TrimStart drops is blank. */
  lemma {:induction false} TrimStartDropsBlanks(s: string)
    ensures forall i :: 0 <= i < |s| - |TrimStart(s)| ==> IsBlank(s[i])
    decreases |s|
  {
    if s != [] && IsBlank(s[0]) {
      TrimStartDropsBlanks(s[1..]);
      forall i | 1 <= i < |s| - |TrimStart(s)|
        ensures IsBlank(s[i])
      {
        assert s[i] == s[1..][i - 1];
      }
    }
  }

  /** Everything TrimEnd drops is blank. */
  lemma {:induction false} TrimEndDropsBlanks(s: string)
    ensures forall i :: |TrimEnd(s)| <= i < |s| ==> IsBlank(s[i])
    decreases |s|
  {
    if s != [] && IsBlank(s[|s| - 1]) {
      TrimEndDropsBlanks(s[..|s| - 1]);
      forall i | |TrimEnd(s)| <= i < |s| - 1
        ensures IsBlank(s[i])
      {
        assert s[i] == s[..|s| - 1][i];
      }
    }
  }

  /** r is the piece of s starting at a, with only blanks on either side of it. */
  predicate TrimmedAt(s: string, r: string, a: int) {
    0 <= a <= |s| - |r| && r == s[a..a + |r|] &&
    (forall i :: 0 <= i < a ==> IsBlank(s[i])) &&
    (forall i :: a + |r| <= i < |s| ==> IsBlank(s[i]))
  }

  /** trim() returns the piece of s between its blank prefix and its blank suffix. */
  lemma TrimIsPiece(s: string)
    ensures TrimmedAt(s, Trim(s), |s| - |TrimStart(s)|)
  {
    var t := TrimStart(s);
    var r := TrimEnd(t);
    var a := |s| - |t|;
    TrimStartDropsBlanks(s);
    TrimEndDropsBlanks(t);
    assert t == s[a..];
    forall i | a + |r| <= i < |s|
      ensures IsBlank(s[i])
    {
      assert s[i] == t[i - a];
    }
  }

  /**
   * Trimming is idempotent, keeps a string whose ends are visible, and
   * empties a string of blanks.
   */
  lemma TrimContract(s: string)
    ensures Trim(Trim(s)) == Trim(s)
    ensures |s| > 0 && !IsBlank(s[0]) && !IsBlank(s[|s| - 1]) ==> Trim(s) == s
    ensures (forall i :: 0 <= i < |s| ==> IsBlank(s[i])) ==> Trim(s) == []
  {
    var r := Trim(s);
    if |r| > 0 {
      assert TrimStart(r) == r;
      assert TrimEnd(r) == r;
    }
    if |s| > 0 && !IsBlank(s[0]) && !IsBlank(s[|s| - 1]) {
      assert TrimStart(s) == s;
      assert TrimEnd(s) == s;
    }
    if forall i :: 0 <= i < |s| ==> IsBlank(s[i]) {
      TrimIsPiece(s);
    }
  }
}
