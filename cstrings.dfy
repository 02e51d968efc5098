/** The pieces of the C library that LoadConfig relies on: `atoi`, which turns
    the numeric EditorConfig values into integers.  Strings coming from the
    EditorConfig library are NUL-terminated C strings; here they are `string`s
    holding the characters before the terminator, so `strcmp(a, b) == 0` is
    plain equality `a == b`.
 */
module CStrings {

  /** `isspace` in the "C" locale: space, tab, newline, vertical tab, form feed, carriage return. */
  predicate IsSpace(c: char) {
    c == ' ' || ('\t' <= c <= '\r')
  }

  predicate IsDigit(c: char) {
    '0' <= c <= '9'
  }

  predicate AllDigits(s: string) {
    forall i :: 0 <= i < |s| ==> IsDigit(s[i])
  }

  /** The string with its leading white space removed. */
  function SkipSpaces(s: string): string {
    if |s| > 0 && IsSpace(s[0]) then SkipSpaces(s[1..]) else s
  }

  function DigitValue(c: char): nat
    requires IsDigit(c)
  {
    c as int - '0' as int
  }

  /** Reads decimal digits from the front of `s` for as long as there are
      any, accumulating their value onto `acc`. */
  function ReadDigits(s: string, acc: nat): nat {
    if |s| > 0 && IsDigit(s[0]) then ReadDigits(s[1..], acc * 10 + DigitValue(s[0])) else acc
  }

  /** `atoi`: skip white space, read an optional sign, then as many decimal
      digits as follow; a string with no digits there yields 0.  The C standard
      leaves an out-of-range result undefined; here integers are unbounded. */
  function Atoi(s: string): int {
    var t := SkipSpaces(s);
    if |t| > 0 && t[0] == '-' then 0 - ReadDigits(t[1..], 0)
    else if |t| > 0 && t[0] == '+' then ReadDigits(t[1..], 0)
    else ReadDigits(t, 0)
  }

  /** The decimal rendering of a natural number, without sign or leading zeros. */
  function Decimal(n: nat): (d: string)
    ensures |d| > 0 && AllDigits(d)
    ensures |d| > 1 ==> d[0] != '0'
  {
    if n < 10 then ['0' + n as char] else Decimal(n / 10) + ['0' + (n % 10) as char]
  }

  /** Reading a run of digits and then what follows it is reading the rest
      with the run's value accumulated. */
  lemma {:induction false} ReadDigitsAppend(d: string, rest: string, acc: nat)
    requires AllDigits(d)
    ensures ReadDigits(d + rest, acc) == ReadDigits(rest, ReadDigits(d, acc))
  {
    if d == [] {
      assert d + rest == rest;
    } else {
      assert (d + rest)[0] == d[0];
      assert (d + rest)[1..] == d[1..] + rest;
      ReadDigitsAppend(d[1..], rest, acc * 10 + DigitValue(d[0]));
    }
  }

  /** Reading the digits `Decimal` writes, up to a character that is not a digit, gives back the number. */
  lemma {:induction false} ReadDecimal(n: nat, rest: string)
    requires rest == [] || !IsDigit(rest[0])
    ensures ReadDigits(Decimal(n) + rest, 0) == n
  {
    var c := '0' + (n % 10) as char;
    if n < 10 {
      assert (Decimal(n) + rest)[1..] == rest;
    } else {
      ReadDigitsAppend(Decimal(n / 10), [c] + rest, 0);
      assert Decimal(n) + rest == Decimal(n / 10) + ([c] + rest);
      ReadDecimal(n / 10, []);
      assert Decimal(n / 10) + [] == Decimal(n / 10);
      assert ([c] + rest)[1..] == rest;
    }
  }

  /** `atoi` reads back what `Decimal` writes, with either sign, and stops at
      the first character that is not a digit. */
  lemma AtoiDecimal(n: nat, rest: string)
    requires rest == [] || !IsDigit(rest[0])
    ensures Atoi(Decimal(n) + rest) == n
    ensures Atoi("-" + (Decimal(n) + rest)) == 0 - n
    ensures Atoi("+" + (Decimal(n) + rest)) == n
  {
    var t := Decimal(n) + rest;
    ReadDecimal(n, rest);
    assert t[0] == Decimal(n)[0];
    assert SkipSpaces(t) == t;
    assert ("-" + t)[1..] == t;
    assert ("+" + t)[1..] == t;
  }

  /** Leading white space does not change what `atoi` reads. */
  lemma AtoiSkipsLeadingSpace(c: char, s: string)
    requires IsSpace(c)
    ensures Atoi([c] + s) == Atoi(s)
  {
    assert ([c] + s)[1..] == s;
  }

  /** A value that does not start with white space, a sign or a digit, such as
      "tab", reads as 0. */
  lemma AtoiNonNumeric(s: string)
    requires s == [] || !(IsSpace(s[0]) || s[0] == '-' || s[0] == '+' || IsDigit(s[0]))
    ensures Atoi(s) == 0
  {
  }
}
