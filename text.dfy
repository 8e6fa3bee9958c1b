/** String helpers shared by the scanner, the dashboard and the server:
    ASCII lower-casing, substring search, decimal integers in and out,
    and the character counting that the CSV export is reasoned about with. */
module Text {
  import opened Wrappers

  // ---------------------------------------------------------------------
  // Case
  // ---------------------------------------------------------------------

  /** ASCII lower-casing of one character; every other character is kept. */
  function LowerChar(c: char): char {
    if 'A' <= c <= 'Z' then (c as int + 32) as char else c
  }

  /** Python's `str.lower()` and JavaScript's `toLowerCase()`, restricted to ASCII. */
  function Lower(s: string): string {
    seq(|s|, i requires 0 <= i < |s| => LowerChar(s[i]))
  }

  /** Lower-casing twice is lower-casing once. */
  lemma LowerIdempotent(s: string)
    ensures Lower(Lower(s)) == Lower(s)
  {
  }

  // ---------------------------------------------------------------------
  // Substrings
  // ---------------------------------------------------------------------

  /** `sub in s` in Python, `s.includes(sub)` in JavaScript. */
  predicate Contains(s: string, sub: string) {
    exists i :: 0 <= i <= |s| - |sub| && IsPrefix(sub, s[i..])
  }

  /** `p` is an initial segment of `s`. */
  predicate IsPrefix(p: string, s: string) {
    |p| <= |s| && s[..|p|] == p
  }

  /** Some word of `words` occurs in `s`. */
  predicate ContainsAny(s: string, words: seq<string>) {
    exists k :: 0 <= k < |words| && Contains(s, words[k])
  }

  /** `p` starts `p + x`, and what follows it is `x`. */
  lemma PrefixOfConcat(p: string, x: string)
    ensures IsPrefix(p, p + x) && (p + x)[|p|..] == x
  {
    assert (p + x)[..|p|] == p;
  }

  /** A different first character rules a prefix out. */
  lemma NotPrefixByFirst(p: string, s: string)
    requires p != [] && s != [] && p[0] != s[0]
    ensures !IsPrefix(p, s)
  {
    if |p| <= |s| {
      assert s[..|p|][0] == s[0];
    }
  }

  // ---------------------------------------------------------------------
  // Decimal integers
  // ---------------------------------------------------------------------

  predicate IsDigit(c: char) {
    '0' <= c <= '9'
  }

  predicate AllDigits(s: string) {
    forall i :: 0 <= i < |s| ==> IsDigit(s[i])
  }

  function DigitChar(d: nat): char
    requires d < 10
  {
    ('0' as int + d) as char
  }

  /** The decimal digits of `n`, most significant first, without leading zeros. */
  function NatToString(n: nat): string
    decreases n
  {
    if n < 10 then [DigitChar(n)] else NatToString(n / 10) + [DigitChar(n % 10)]
  }

  /** The decimal rendering of an integer, as Python's f-strings and
      JavaScript's template literals print a whole number. */
  function IntToString(i: int): string {
    if i < 0 then "-" + NatToString(-i) else NatToString(i)
  }

  /** The value of a string of decimal digits. */
  function DigitsValue(s: string): nat
    requires AllDigits(s)
  {
    if s == [] then 0 else 10 * DigitsValue(s[..|s| - 1]) + (s[|s| - 1] as int - '0' as int)
  }

  /** One or more decimal digits. */
  function ParseNat(s: string): Option<nat> {
    if s != [] && AllDigits(s) then Some(DigitsValue(s)) else None
  }

  /** Python's `int(s)` on a string: an optional sign followed by decimal digits.
      Anything else (the empty string included) is the `ValueError` case. */
  function ParseInt(s: string): (r: Option<int>)
    ensures r.Some? ==> s != [] && (IsDigit(s[0]) || s[0] == '-' || s[0] == '+')
  {
    if s != [] && (s[0] == '-' || s[0] == '+') then
      match ParseNat(s[1..])
      case Some(n) => Some(if s[0] == '-' then -(n as int) else n as int)
      case None => None
    else
      match ParseNat(s)
      case Some(n) => Some(n)
      case None => None
  }

  lemma {:induction false} NatToStringDigits(n: nat)
    ensures |NatToString(n)| > 0
    ensures AllDigits(NatToString(n))
    ensures DigitsValue(NatToString(n)) == n
    decreases n
  {
    if n >= 10 {
      NatToStringDigits(n / 10);
      var s := NatToString(n);
      assert s[..|s| - 1] == NatToString(n / 10);
    }
  }

  /** Parsing what `IntToString` prints gives the number back. */
  lemma ParseIntRoundTrip(i: int)
    ensures ParseInt(IntToString(i)) == Some(i)
  {
    var s := IntToString(i);
    if i < 0 {
      NatToStringDigits(-i);
      assert s[0] == '-' && s[1..] == NatToString(-i);
      assert ParseNat(s[1..]) == Some(-i);
    } else {
      NatToStringDigits(i);
      assert IsDigit(s[0]);
      assert ParseNat(s) == Some(i);
    }
  }

  /** The length of the run of digits that `s` starts with. */
  function DigitRun(s: string): (n: nat)
    ensures n <= |s|
    ensures forall i :: 0 <= i < n ==> IsDigit(s[i])
    ensures n < |s| ==> !IsDigit(s[n])
  {
    if s != [] && IsDigit(s[0]) then 1 + DigitRun(s[1..]) else 0
  }

  /** Read the number at the start of `s`: its value and the text after it. */
  function ReadNumber(s: string): (nat, string) {
    var k := DigitRun(s);
    (DigitsValue(s[..k]), s[k..])
  }

  lemma {:induction false} DigitRunOfDigits(s: string, x: string)
    requires AllDigits(s) && x != [] && !IsDigit(x[0])
    ensures DigitRun(s + x) == |s|
    decreases |s|
  {
    if s == [] {
      assert s + x == x;
    } else {
      assert (s + x)[1..] == s[1..] + x;
      DigitRunOfDigits(s[1..], x);
    }
  }

  /** A printed number followed by a non-digit reads back as that number,
      and the text after it is left over. */
  lemma ReadNumberAfter(n: nat, x: string)
    requires x != [] && !IsDigit(x[0])
    ensures ReadNumber(NatToString(n) + x) == (n, x)
  {
    var s := NatToString(n);
    NatToStringDigits(n);
    DigitRunOfDigits(s, x);
    assert (s + x)[..|s|] == s;
    assert (s + x)[|s|..] == x;
  }

  // ---------------------------------------------------------------------
  // Characters: counting, replacing, splitting
  // ---------------------------------------------------------------------

  /** The number of occurrences of `c` in `s`. */
  function Count(c: char, s: string): nat {
    if s == [] then 0 else Count(c, s[..|s| - 1]) + (if s[|s| - 1] == c then 1 else 0)
  }

  lemma {:induction false} CountConcat(c: char, a: string, b: string)
    ensures Count(c, a + b) == Count(c, a) + Count(c, b)
    decreases |b|
  {
    if b == [] {
      assert a + b == a;
    } else {
      assert (a + b)[..|a + b| - 1] == a + b[..|b| - 1];
      CountConcat(c, a, b[..|b| - 1]);
    }
  }

  lemma {:induction false} CountAbsent(c: char, s: string)
    requires forall i :: 0 <= i < |s| ==> s[i] != c
    ensures Count(c, s) == 0
    decreases |s|
  {
    if s != [] {
      CountAbsent(c, s[..|s| - 1]);
    }
  }

  /** Neither a comma nor a line break occurs in a printed number. */
  lemma IntToStringPlain(i: int)
    ensures Count(',', IntToString(i)) == 0
    ensures Count('\n', IntToString(i)) == 0
  {
    NatToStringDigits(if i < 0 then -i else i);
    CountAbsent(',', IntToString(i));
    CountAbsent('\n', IntToString(i));
  }

  /** JavaScript's `s.replace(/a/g, b)` for single characters: every `a` becomes `b`. */
  function ReplaceChar(s: string, a: char, b: char): (r: string)
    ensures |r| == |s|
    ensures forall i :: 0 <= i < |s| ==> r[i] == (if s[i] == a then b else s[i])
  {
    if s == [] then []
    else ReplaceChar(s[..|s| - 1], a, b) + [if s[|s| - 1] == a then b else s[|s| - 1]]
  }

  /** The fields of `s` between the separators, as a CSV reader splits a line. */
  function Split(s: string, sep: char): (r: seq<string>)
    ensures |r| == Count(sep, s) + 1
  {
    if s == [] then [""]
    else
      var init := Split(s[..|s| - 1], sep);
      if s[|s| - 1] == sep then init + [""]
      else init[..|init| - 1] + [init[|init| - 1] + [s[|s| - 1]]]
  }

  /** The strings `fs` with `sep` between each two. */
  function Join(fs: seq<string>, sep: char): string {
    if fs == [] then ""
    else if |fs| == 1 then fs[0]
    else Join(fs[..|fs| - 1], sep) + [sep] + fs[|fs| - 1]
  }

  /** Occurrences of `c` over all the strings. */
  function CountAll(c: char, fs: seq<string>): nat {
    if fs == [] then 0 else CountAll(c, fs[..|fs| - 1]) + Count(c, fs[|fs| - 1])
  }

  lemma {:induction false} CountAllZero(c: char, fs: seq<string>)
    requires forall k :: 0 <= k < |fs| ==> Count(c, fs[k]) == 0
    ensures CountAll(c, fs) == 0
    decreases |fs|
  {
    if fs != [] {
      CountAllZero(c, fs[..|fs| - 1]);
    }
  }

  /** A joined line holds one separator between each two strings, plus those inside the strings. */
  lemma {:induction false} CountJoin(c: char, fs: seq<string>, sep: char)
    requires fs != []
    ensures Count(c, Join(fs, sep)) == (if c == sep then |fs| - 1 else 0) + CountAll(c, fs)
    decreases |fs|
  {
    if |fs| == 1 {
      assert fs[..0] == [];
    } else {
      var init := fs[..|fs| - 1];
      CountJoin(c, init, sep);
      CountConcat(c, Join(init, sep), [sep]);
      CountConcat(c, Join(init, sep) + [sep], fs[|fs| - 1]);
      assert Count(c, [sep]) == (if c == sep then 1 else 0) by {
        assert [sep][..0] == [];
      }
    }
  }
}
