/**
 * The string operations the matching engine relies on, with Python's meaning:
 * `str.strip()`, `str.lower()` on ASCII letters, `str.upper()` on ASCII letters and
 * on the characters that upper-case to an ASCII S, the substring test `a in b`,
 * `str.split(sep)` and decimal rendering/parsing of integers.
 */
module Text {

  /** The characters Python's `str.isspace()` accepts, i.e. what `str.strip()` removes. */
  predicate IsSpace(c: char) {
    c == ' ' || c == '\t' || c == '\n' || c == '\r' || c == '\U{000B}' || c == '\U{000C}'
    || ('\U{001C}' <= c <= '\U{001F}') || c == '\U{0085}' || c == '\U{00A0}' || c == '\U{1680}'
    || ('\U{2000}' <= c <= '\U{200A}') || c == '\U{2028}' || c == '\U{2029}' || c == '\U{202F}'
    || c == '\U{205F}' || c == '\U{3000}'
  }

  predicate IsUpperAscii(c: char) { 'A' <= c <= 'Z' }
  predicate IsLowerAscii(c: char) { 'a' <= c <= 'z' }

  function LowerChar(c: char): char {
    if IsUpperAscii(c) then (c as int + 32) as char else c
  }

  /**
   * The characters whose upper case, under Python's full case mapping, is or
   * holds an ASCII letter S: the sharp s, the long s and the two st ligatures.
   */
  predicate IsSUpperSource(c: char) {
    c == '\U{00DF}' || c == '\U{017F}' || c == '\U{FB05}' || c == '\U{FB06}'
  }

  /** The upper case of one character: ASCII letters, `ß` to `SS`, `ſ` to `S`, `ﬅ` and `ﬆ` to `ST`. */
  function UpperChar(c: char): (r: string)
    ensures 1 <= |r| <= 2
  {
    if IsLowerAscii(c) then [(c as int - 32) as char]
    else if c == '\U{00DF}' then "SS"
    else if c == '\U{017F}' then "S"
    else if c == '\U{FB05}' || c == '\U{FB06}' then "ST"
    else [c]
  }

  /** `s.lower()`, restricted to ASCII letters (Japanese text is unaffected either way). */
  function Lower(s: string): (r: string)
    ensures |r| == |s|
    ensures forall i :: 0 <= i < |s| ==> r[i] == LowerChar(s[i])
  {
    seq(|s|, i requires 0 <= i < |s| => LowerChar(s[i]))
  }

  /**
   * `s.upper()` for ASCII letters and for every character whose upper case
   * holds an ASCII S; other characters are kept as they are.
   */
  function Upper(s: string): (r: string)
    ensures |s| <= |r| <= 2 * |s|
  {
    if s == [] then [] else UpperChar(s[0]) + Upper(s[1..])
  }

  /** Upper-casing works character by character. */
  lemma {:induction false} UpperAppend(a: string, b: string)
    ensures Upper(a + b) == Upper(a) + Upper(b)
  {
    if a == [] {
      assert a + b == b;
    } else {
      assert (a + b)[0] == a[0];
      assert (a + b)[1..] == a[1..] + b;
      UpperAppend(a[1..], b);
      assert Upper(a + b) == UpperChar(a[0]) + Upper(a[1..] + b);
    }
  }

  /** Without the sharp s, the long s and the st ligatures, upper-casing keeps the length and maps each character alone. */
  lemma {:induction false} UpperPlain(s: string)
    requires forall i :: 0 <= i < |s| ==> !IsSUpperSource(s[i])
    ensures |Upper(s)| == |s|
    ensures forall i :: 0 <= i < |s| ==> Upper(s)[i] == (if IsLowerAscii(s[i]) then (s[i] as int - 32) as char else s[i])
  {
    if s != [] {
      UpperPlain(s[1..]);
      assert Upper(s) == UpperChar(s[0]) + Upper(s[1..]);
      forall i | 0 <= i < |s|
        ensures Upper(s)[i] == (if IsLowerAscii(s[i]) then (s[i] as int - 32) as char else s[i])
      {
        if i > 0 {
          assert Upper(s)[i] == Upper(s[1..])[i - 1];
          assert s[1..][i - 1] == s[i];
        }
      }
    }
  }

  /** Upper-casing an upper-cased string changes nothing. */
  lemma {:induction false} UpperIdempotent(s: string)
    ensures Upper(Upper(s)) == Upper(s)
  {
    if s != [] {
      var head := UpperChar(s[0]);
      UpperIdempotent(s[1..]);
      UpperAppend(head, Upper(s[1..]));
      UpperCharFixed(s[0]);
    }
  }

  /** The upper case of one character is already upper case. */
  lemma UpperCharFixed(c: char)
    ensures Upper(UpperChar(c)) == UpperChar(c)
  {
    var r := UpperChar(c);
    if |r| == 1 {
      assert r[1..] == [];
    } else {
      assert r == "SS" || r == "ST";
      assert r[1..][1..] == [];
    }
  }

  /** A string that lowering leaves alone. */
  predicate IsLowered(s: string) {
    forall i :: 0 <= i < |s| ==> !IsUpperAscii(s[i])
  }

  lemma LowerIsLowered(s: string)
    ensures IsLowered(Lower(s))
    ensures Lower(Lower(s)) == Lower(s)
  {
  }

  lemma LoweredFixed(s: string)
    requires IsLowered(s)
    ensures Lower(s) == s
  {
  }

  /** Number of leading whitespace characters. */
  function LeadingSpaces(s: string): (n: nat)
    ensures n <= |s|
    ensures forall k :: 0 <= k < n ==> IsSpace(s[k])
    ensures n < |s| ==> !IsSpace(s[n])
  {
    if |s| > 0 && IsSpace(s[0]) then 1 + LeadingSpaces(s[1..]) else 0
  }

  /** Length of `s` once trailing whitespace is removed. */
  function TrailingCut(s: string): (n: nat)
    ensures n <= |s|
    ensures forall k :: n <= k < |s| ==> IsSpace(s[k])
    ensures n > 0 ==> !IsSpace(s[n - 1])
  {
    if |s| > 0 && IsSpace(s[|s| - 1]) then TrailingCut(s[..|s| - 1]) else |s|
  }

  /** A string with no whitespace at either end. */
  predicate IsTrimmed(s: string) {
    s == [] || (!IsSpace(s[0]) && !IsSpace(s[|s| - 1]))
  }

  /** `s.strip()`: the whitespace at both ends removed. */
  function Strip(s: string): string {
    var a, b := LeadingSpaces(s), TrailingCut(s);
    if a < b then s[a..b] else []
  }

  /** The stripped string has no whitespace at its ends. */
  lemma StripSpec(s: string)
    ensures IsTrimmed(Strip(s))
  {
    var a, b := LeadingSpaces(s), TrailingCut(s);
    if a < b {
      var r := s[a..b];
      assert r[0] == s[a];
      assert r[b - a - 1] == s[b - 1];
    }
  }

  /** The stripped string is empty exactly when every character is whitespace. */
  lemma StripBlank(s: string)
    ensures Strip(s) == [] <==> forall k :: 0 <= k < |s| ==> IsSpace(s[k])
  {
  }

  lemma StripTrimmed(s: string)
    requires IsTrimmed(s)
    ensures Strip(s) == s
  {
    if s != [] {
      assert LeadingSpaces(s) == 0;
      assert TrailingCut(s) == |s|;
    }
  }

  /** Lowering changes no whitespace character, so a trimmed string stays trimmed. */
  lemma LowerKeepsTrimmed(s: string)
    requires IsTrimmed(s)
    ensures IsTrimmed(Lower(s))
  {
  }

  /** Python's `needle in hay` on strings. */
  predicate Contains(hay: string, needle: string) {
    exists i :: 0 <= i <= |hay| - |needle| && needle <= hay[i..]
  }

  lemma ContainsEmpty(hay: string)
    ensures Contains(hay, [])
  {
    assert [] <= hay[0..];
  }

  /** `s.split(sep)`: the pieces between separators, always at least one. */
  function Split(s: string, sep: char): (parts: seq<string>)
    ensures |parts| >= 1
    ensures forall p :: p in parts ==> sep !in p
  {
    if s == [] then [[]]
    else
      var rest := Split(s[1..], sep);
      if s[0] == sep then [[]] + rest
      else [[s[0]] + rest[0]] + rest[1..]
  }

  /** `sep.join(parts)`. */
  function Join(parts: seq<string>, sep: char): string
    requires |parts| >= 1
  {
    if |parts| == 1 then parts[0] else parts[0] + [sep] + Join(parts[1..], sep)
  }

  /** Splitting loses nothing: joining the pieces back gives the original string. */
  lemma {:induction false} JoinSplit(s: string, sep: char)
    ensures Join(Split(s, sep), sep) == s
  {
    if s != [] {
      JoinSplit(s[1..], sep);
      var rest := Split(s[1..], sep);
      if s[0] == sep {
        assert Split(s, sep)[1..] == rest;
      } else {
        var parts := Split(s, sep);
        if |rest| == 1 {
          assert parts == [[s[0]] + rest[0]];
        } else {
          assert parts[1..] == rest[1..];
          assert Join(rest, sep) == rest[0] + [sep] + Join(rest[1..], sep);
        }
      }
    }
  }

  /** A separator cuts the split in two: the pieces of each side, in order. */
  lemma {:induction false} SplitAtSeparator(a: string, b: string, sep: char)
    ensures Split(a + [sep] + b, sep) == Split(a, sep) + Split(b, sep)
  {
    if a == [] {
      assert a + [sep] + b == [sep] + b;
      assert ([sep] + b)[1..] == b;
    } else {
      assert (a + [sep] + b)[1..] == a[1..] + [sep] + b;
      SplitAtSeparator(a[1..], b, sep);
    }
  }

  lemma SplitWithoutSeparator(s: string, sep: char)
    requires sep !in s
    ensures Split(s, sep) == [s]
  {
    if s != [] {
      assert sep !in s[1..];
      SplitWithoutSeparator(s[1..], sep);
      assert s[0] != sep;
      assert [s[0]] + s[1..] == s;
    }
  }

  function DigitChar(d: nat): char
    requires d < 10
  {
    ('0' as int + d) as char
  }

  predicate IsDigit(c: char) { '0' <= c <= '9' }

  function DigitValue(c: char): nat
    requires IsDigit(c)
  {
    c as int - '0' as int
  }

  /** Decimal digits of `n`, most significant first, no leading zeros. */
  function NatToDigits(n: nat): (r: string)
    ensures |r| >= 1
    ensures forall i :: 0 <= i < |r| ==> IsDigit(r[i])
  {
    if n < 10 then [DigitChar(n)] else NatToDigits(n / 10) + [DigitChar(n % 10)]
  }

  /** Python's `str(n)` on an integer. */
  function IntToString(n: int): string {
    if n < 0 then "-" + NatToDigits(-n) else NatToDigits(n)
  }

  /** The value of a string of decimal digits. */
  function DigitsValue(ds: string): nat
    requires forall i :: 0 <= i < |ds| ==> IsDigit(ds[i])
  {
    if ds == [] then 0 else DigitsValue(ds[..|ds| - 1]) * 10 + DigitValue(ds[|ds| - 1])
  }

  lemma {:induction false} DigitsValueOfNat(n: nat)
    ensures DigitsValue(NatToDigits(n)) == n
  {
    if n >= 10 {
      var ds := NatToDigits(n);
      assert ds[..|ds| - 1] == NatToDigits(n / 10);
      DigitsValueOfNat(n / 10);
    }
  }

  /** Python's `a < b` on strings: code-point lexicographic order. */
  predicate LexLess(a: string, b: string) {
    if a == [] then b != []
    else if b == [] then false
    else if a[0] != b[0] then a[0] < b[0]
    else LexLess(a[1..], b[1..])
  }

  /** The order of the sort key `(len(s), s)`: shorter first, then lexicographic. */
  predicate ShortLexLess(a: string, b: string) {
    |a| < |b| || (|a| == |b| && LexLess(a, b))
  }

  lemma {:induction false} LexIrreflexive(a: string)
    ensures !LexLess(a, a)
  {
    if a != [] {
      LexIrreflexive(a[1..]);
    }
  }

  lemma {:induction false} LexTransitive(a: string, b: string, c: string)
    requires LexLess(a, b) && LexLess(b, c)
    ensures LexLess(a, c)
  {
    if a != [] && b != [] && c != [] && a[0] == b[0] && b[0] == c[0] {
      LexTransitive(a[1..], b[1..], c[1..]);
    }
  }

  lemma {:induction false} LexTotal(a: string, b: string)
    requires a != b
    ensures LexLess(a, b) || LexLess(b, a)
  {
    if a != [] && b != [] && a[0] == b[0] {
      assert a == [a[0]] + a[1..] && b == [b[0]] + b[1..];
      LexTotal(a[1..], b[1..]);
    }
  }

  /** ShortLexLess is a strict total order. */
  lemma ShortLexStrictTotal(a: string, b: string, c: string)
    ensures !ShortLexLess(a, a)
    ensures a != b ==> ShortLexLess(a, b) || ShortLexLess(b, a)
    ensures ShortLexLess(a, b) ==> !ShortLexLess(b, a)
    ensures ShortLexLess(a, b) && ShortLexLess(b, c) ==> ShortLexLess(a, c)
  {
    LexIrreflexive(a);
    if a != b && |a| == |b| {
      LexTotal(a, b);
    }
    if ShortLexLess(a, b) && ShortLexLess(b, a) {
      LexTransitive(a, b, a);
    }
    if ShortLexLess(a, b) && ShortLexLess(b, c) && |a| == |b| == |c| {
      LexTransitive(a, b, c);
    }
  }
}
