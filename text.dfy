/** Text that a workout carries: the capitalised type tag, English month
    names and decimal numerals, written as JavaScript writes them for the
    integers the model needs (days of the month, the millisecond clock). */
module Text {

  /** `toUpperCase` on one character; the type tags are plain ASCII. */
  function ToUpper(c: char): char
  {
    if 'a' <= c <= 'z' then (c as int - 32) as char else c
  }

  /** The first character upper-cased, the rest unchanged. */
  function Capitalize(s: string): string
    requires |s| > 0
  {
    [ToUpper(s[0])] + s[1..]
  }

  predicate NoSpace(s: string)
  {
    forall i :: 0 <= i < |s| ==> s[i] != ' '
  }

  /** What `Date.prototype.getMonth()` returns: 0 for January up to 11. */
  type Month = m: nat | m < 12

  /** What `Date.prototype.getDate()` returns. */
  type DayOfMonth = d: nat | 1 <= d <= 31 witness 1

  const MonthNames: seq<string> :=
    ["January", "February", "March", "April", "May", "June",
     "July", "August", "September", "October", "November", "December"]

  function MonthName(m: Month): string
  {
    MonthNames[m]
  }

  /** Month names are single words, and no two months share a name. */
  lemma MonthNameFacts(m1: Month, m2: Month)
    ensures NoSpace(MonthName(m1))
    ensures MonthName(m1) == MonthName(m2) ==> m1 == m2
  {
  }

  /** `suffix` is the last part of `s`. */
  predicate EndsWith(s: string, suffix: string)
  {
    |suffix| <= |s| && s[|s| - |suffix|..] == suffix
  }

  predicate IsDigit(c: char)
  {
    '0' <= c <= '9'
  }

  predicate IsDigits(s: string)
  {
    forall i :: 0 <= i < |s| ==> IsDigit(s[i])
  }

  function Digit(d: nat): char
    requires d < 10
  {
    ('0' as int + d) as char
  }

  function DigitValue(c: char): nat
    requires IsDigit(c)
  {
    c as int - '0' as int
  }

  function Pow10(k: nat): (p: nat)
    ensures p > 0
  {
    if k == 0 then 1 else 10 * Pow10(k - 1)
  }

  /** The numeral of `n` as `n + ''` writes it: no sign, no leading zero. */
  function DecimalString(n: nat): (s: string)
    ensures |s| > 0 && IsDigits(s)
    ensures s[0] == '0' ==> n == 0 && s == "0"
    decreases n
  {
    if n < 10 then [Digit(n)] else DecimalString(n / 10) + [Digit(n % 10)]
  }

  /** The value of a string of decimal digits, most significant first. */
  function ParseDecimal(s: string): nat
    requires IsDigits(s)
    decreases |s|
  {
    if s == [] then 0 else 10 * ParseDecimal(s[..|s| - 1]) + DigitValue(s[|s| - 1])
  }

  /** Reading a numeral back gives the number it was written from. */
  lemma {:induction false} ParseDecimalString(n: nat)
    ensures ParseDecimal(DecimalString(n)) == n
  {
    if n >= 10 {
      var s := DecimalString(n);
      assert s[..|s| - 1] == DecimalString(n / 10);
      ParseDecimalString(n / 10);
    }
  }

  /** Distinct numbers have distinct numerals. */
  lemma DecimalStringInjective(a: nat, b: nat)
    ensures DecimalString(a) == DecimalString(b) ==> a == b
  {
    ParseDecimalString(a);
    ParseDecimalString(b);
  }

  /** A numeral of k digits stands for a number below 10^k. */
  lemma {:induction false} ParseDecimalBound(s: string)
    requires IsDigits(s)
    ensures ParseDecimal(s) < Pow10(|s|)
  {
    if s != [] {
      ParseDecimalBound(s[..|s| - 1]);
    }
  }

  lemma {:induction false} Pow10Monotone(i: nat, j: nat)
    requires i <= j
    ensures Pow10(i) <= Pow10(j)
  {
    if i < j {
      Pow10Monotone(i, j - 1);
    }
  }

  /** Euclidean division has one quotient and remainder. */
  lemma ModUnique(a: int, b: int, q: int, r: int)
    requires b > 0 && a == b * q + r && 0 <= r < b
    ensures a % b == r
  {
    var d := q - a / b;
    assert b * d == a % b - r;
    if d > 0 {
      MulAtLeast(b, d);
    } else if d < 0 {
      MulAtLeast(b, -d);
    }
  }

  lemma MulAtLeast(b: int, d: int)
    requires b > 0 && d >= 1
    ensures b * d >= b
  {
  }

  /** Appending a digit to x multiplies x by ten and adds the digit,
      also modulo a power of ten. */
  lemma ShiftDigitMod(x: nat, v: nat, m: nat)
    requires v < 10 && m > 0
    ensures (10 * x + v) % (10 * m) == 10 * (x % m) + v
  {
    var q, r := x / m, x % m;
    assert 10 * x + v == (10 * m) * q + (10 * r + v);
    ModUnique(10 * x + v, 10 * m, q, 10 * r + v);
  }

  /** The last k digits of a numeral stand for its value modulo 10^k. */
  lemma {:induction false} ParseDecimalSuffix(s: string, k: nat)
    requires IsDigits(s) && k <= |s|
    ensures ParseDecimal(s[|s| - k..]) == ParseDecimal(s) % Pow10(k)
  {
    if k > 0 {
      var p := s[..|s| - 1];
      var t := s[|s| - k..];
      assert t[..|t| - 1] == p[|p| - (k - 1)..];
      assert t[|t| - 1] == s[|s| - 1];
      ParseDecimalSuffix(p, k - 1);
      ShiftDigitMod(ParseDecimal(p), DigitValue(s[|s| - 1]), Pow10(k - 1));
    }
  }
}
