/** Character-level building blocks of the logger's output: unpadded and
    zero-padded decimal numbers (`%d`, `%02d`-style strftime fields),
    left-justified fields (`%-5s`), the buffer behaviour of `strftime`, and
    splitting a string at a separator (used to read a log file name back). */
module Text {

  predicate IsDigit(c: char) {
    '0' <= c <= '9'
  }

  predicate AllDigits(s: string) {
    forall i :: 0 <= i < |s| ==> IsDigit(s[i])
  }

  function DigitValue(c: char): (d: nat)
    requires IsDigit(c)
    ensures d < 10
  {
    (c as int) - ('0' as int)
  }

  function DigitChar(d: nat): (c: char)
    requires d < 10
    ensures IsDigit(c) && DigitValue(c) == d
  {
    (('0' as int) + d) as char
  }

  /** A non-negative number in decimal without padding or sign, as `%d`
      prints it: most significant digit first, no leading zero. */
  function Decimal(n: nat): (s: string)
    ensures |s| >= 1 && AllDigits(s)
    ensures s[0] == '0' <==> n == 0
  {
    if n < 10 then [DigitChar(n)] else Decimal(n / 10) + [DigitChar(n % 10)]
  }

  /** Reads a string of decimal digits back as a number. */
  function ParseDecimal(s: string): nat
    requires AllDigits(s)
  {
    if s == [] then 0 else 10 * ParseDecimal(s[..|s| - 1]) + DigitValue(s[|s| - 1])
  }

  lemma {:induction false} DecimalRoundTrip(n: nat)
    ensures ParseDecimal(Decimal(n)) == n
  {
    var s := Decimal(n);
    if n < 10 {
      assert s[..|s| - 1] == [];
    } else {
      assert s[..|s| - 1] == Decimal(n / 10);
      DecimalRoundTrip(n / 10);
    }
  }

  lemma DecimalInjective(a: nat, b: nat)
    requires Decimal(a) == Decimal(b)
    ensures a == b
  {
    DecimalRoundTrip(a);
    DecimalRoundTrip(b);
  }

  function Pow10(k: nat): (p: nat)
    ensures p >= 1
  {
    if k == 0 then 1 else 10 * Pow10(k - 1)
  }

  /** A number below 10^k takes at most k digits. */
  lemma {:induction false} DecimalLengthBelow(n: nat, k: nat)
    requires 1 <= k && n < Pow10(k)
    ensures |Decimal(n)| <= k
  {
    if n >= 10 {
      assert k != 1;
      DecimalLengthBelow(n / 10, k - 1);
    }
  }

  /** A number in [10^(k-1), 10^k) takes exactly k digits. */
  lemma {:induction false} DecimalLengthExact(n: nat, k: nat)
    requires 1 <= k && Pow10(k - 1) <= n < Pow10(k)
    ensures |Decimal(n)| == k
  {
    if n >= 10 {
      assert k != 1;
      DecimalLengthExact(n / 10, k - 1);
    }
  }

  /** Two decimal digits with a leading zero, as strftime writes the
      fields %m, %d, %H, %M and %S (section 7.27.3.5 of ISO C11). */
  function Pad2(n: nat): (s: string)
    requires n < 100
    ensures |s| == 2 && AllDigits(s)
    ensures ParseDecimal(s) == n
  {
    var s := [DigitChar(n / 10), DigitChar(n % 10)];
    assert s[..1] == [s[0]] && [s[0]][..0] == [];
    assert ParseDecimal(s[..1]) == n / 10;
    assert ParseDecimal(s) == 10 * (n / 10) + n % 10;
    s
  }

  /** `%-5s`-style conversion (section 7.21.6.1 of ISO C11): the string
      left-justified in a field of `width` characters, padded on the right
      with spaces and never truncated. */
  function PadRight(s: string, width: nat): (r: string)
    ensures |r| == if |s| < width then width else |s|
    ensures r[..|s|] == s
    ensures forall i :: |s| <= i < |r| ==> r[i] == ' '
  {
    if |s| < width then s + seq(width - |s|, _ => ' ') else s
  }

  /** What `buf[strftime(buf, size, ...)] = '\0'` leaves in `buf`: strftime
      returns 0 when the text and its terminating null do not fit in `size`
      characters, so the buffer then holds the empty string. */
  function Strftime(text: string, size: nat): (r: string)
    ensures r == text || r == ""
    ensures r == "" || |r| + 1 <= size
    ensures |text| < size ==> r == text
  {
    if |text| < size then text else ""
  }

  /** The part of `s` before the first `c`, and the part after it. */
  function SplitOn(s: string, c: char): (string, string)
  {
    if s == [] then ([], [])
    else if s[0] == c then ([], s[1..])
    else
      var (x, y) := SplitOn(s[1..], c);
      ([s[0]] + x, y)
  }

  /** `x`, the separator `c`, then `y`. */
  function Join(x: string, c: char, y: string): string
  {
    x + [c] + y
  }

  /** Splitting at the first separator undoes a join whose left part has
      no separator in it. */
  lemma {:induction false} SplitOnJoin(x: string, c: char, y: string)
    requires c !in x
    ensures SplitOn(Join(x, c, y), c) == (x, y)
  {
    if x == [] {
      assert Join(x, c, y) == [c] + y;
    } else {
      assert Join(x, c, y)[1..] == Join(x[1..], c, y);
      SplitOnJoin(x[1..], c, y);
      assert [x[0]] + x[1..] == x;
    }
  }

  lemma DigitsHaveNo(s: string, c: char)
    requires AllDigits(s) && !IsDigit(c)
    ensures c !in s
  {
    forall i | 0 <= i < |s| ensures s[i] != c { }
  }
}
