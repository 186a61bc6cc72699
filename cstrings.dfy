/** The few C string primitives the plugin leans on: bounded formatting with
    snprintf, the decimal rendering of a non-negative long (`%li`), and the
    ASCII case-insensitive comparison of strcasecmp. Strings are C strings
    without an embedded NUL, so `strlen(s)` is `|s|`. */
module CStrings {

  datatype Option<+T> = None | Some(value: T)

  /** snprintf(buf, size, "%s", s): at most size - 1 characters are stored,
      the rest is cut off. */
  function Snprintf(size: nat, s: string): (r: string)
    requires size > 0
    ensures |r| < size
    ensures r <= s
    ensures |s| < size ==> r == s
    ensures |s| >= size ==> r == s[..size - 1]
  {
    if |s| < size then s else s[..size - 1]
  }

  predicate IsDigit(c: char) {
    '0' <= c <= '9'
  }

  predicate AllDigits(s: string) {
    forall i :: 0 <= i < |s| ==> IsDigit(s[i])
  }

  function DigitChar(d: nat): (c: char)
    requires d < 10
    ensures IsDigit(c) && (c - '0') as nat == d
  {
    ('0' as int + d) as char
  }

  function DigitValue(c: char): nat
    requires IsDigit(c)
  {
    (c - '0') as nat
  }

  function Pow10(k: nat): (p: nat)
    ensures p >= 1
  {
    if k == 0 then 1 else 10 * Pow10(k - 1)
  }

  /** The characters `%li` prints for a non-negative value. */
  function DecimalDigits(n: nat): (s: string)
    ensures 1 <= |s|
    ensures AllDigits(s)
    ensures (s[0] == '0') == (n == 0)
    decreases n
  {
    if n < 10 then [DigitChar(n)] else DecimalDigits(n / 10) + [DigitChar(n % 10)]
  }

  /** Reads a run of decimal digits back into its value. */
  function ParseDecimal(s: string): nat
    requires AllDigits(s)
  {
    if s == [] then 0 else 10 * ParseDecimal(s[..|s| - 1]) + DigitValue(s[|s| - 1])
  }

  /** A value below 10^k is printed with at most k digits. */
  lemma {:induction false} DecimalLength(n: nat, k: nat)
    requires 1 <= k && n < Pow10(k)
    ensures |DecimalDigits(n)| <= k
  {
    assert Pow10(1) == 10;
    if n >= 10 {
      DecimalLength(n / 10, k - 1);
    }
  }

  /** Printing and reading back gives the value printed. */
  lemma {:induction false} ParseDecimalDigits(n: nat)
    ensures ParseDecimal(DecimalDigits(n)) == n
  {
    var s := DecimalDigits(n);
    if n < 10 {
      assert s[..0] == [];
    } else {
      assert s[..|s| - 1] == DecimalDigits(n / 10);
      ParseDecimalDigits(n / 10);
    }
  }

  /** Distinct values print differently. */
  lemma DecimalDigitsInjective(m: nat, n: nat)
    requires DecimalDigits(m) == DecimalDigits(n)
    ensures m == n
  {
    ParseDecimalDigits(m);
    ParseDecimalDigits(n);
  }

  /** tolower in the C locale. */
  function ToLower(c: char): char {
    if 'A' <= c <= 'Z' then (c as int + 32) as char else c
  }

  function Lower(s: string): (r: string)
    ensures |r| == |s|
    ensures forall i :: 0 <= i < |s| ==> r[i] == ToLower(s[i])
  {
    if s == [] then [] else [ToLower(s[0])] + Lower(s[1..])
  }

  /** strcasecmp(a, b) == 0: the strings agree character by character after
      tolower, and end at the same place. */
  function StrCaseEqual(a: string, b: string): (r: bool)
    ensures r <==> Lower(a) == Lower(b)
  {
    if a == [] || b == [] then a == b
    else ToLower(a[0]) == ToLower(b[0]) && StrCaseEqual(a[1..], b[1..])
  }
}
