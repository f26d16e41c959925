/**
 * How Python renders the values that the booking handlers put into their
 * f-strings: `str(n)` for an integer, `format(n, "04d")` for the booking
 * number, and `str(None)` for an argument that was not supplied.
 */
module Format {
  import opened Wrappers

  /** The character of a single decimal digit. */
  function DigitChar(d: nat): (c: char)
    requires d < 10
    ensures '0' <= c <= '9'
    ensures (c == '0') == (d == 0)
  {
    ('0' as int + d) as char
  }

  /** The value of a decimal digit character; the inverse of DigitChar. */
  function DigitValue(c: char): (d: nat)
    requires '0' <= c <= '9'
    ensures d < 10 && DigitChar(d) == c
  {
    c as int - '0' as int
  }

  predicate IsDigits(s: string) {
    forall i :: 0 <= i < |s| ==> '0' <= s[i] <= '9'
  }

  function Pow10(k: nat): (p: nat)
    ensures p >= 1
  {
    if k == 0 then 1 else 10 * Pow10(k - 1)
  }

  /**
   * The shortest decimal numeral of `n` (Python's `str(n)` for `n >= 0`):
   * non-empty, only digits, and with a leading zero only for `n == 0`.
   */
  function Digits(n: nat): (s: string)
    ensures |s| >= 1 && IsDigits(s)
    ensures (s[0] == '0') == (n == 0)
    decreases n
  {
    if n < 10 then [DigitChar(n)] else Digits(n / 10) + [DigitChar(n % 10)]
  }

  /** Reference reading of a string of digits as a number (leading zeros allowed). */
  function ValueOf(s: string): nat
    requires IsDigits(s)
  {
    if s == [] then 0 else ValueOf(s[..|s| - 1]) * 10 + DigitValue(s[|s| - 1])
  }

  /** Reading back the numeral of `n` gives `n`. */
  lemma {:induction false} ValueOfDigits(n: nat)
    ensures ValueOf(Digits(n)) == n
    decreases n
  {
    if n >= 10 {
      ValueOfDigits(n / 10);
      var s := Digits(n);
      assert s[..|s| - 1] == Digits(n / 10);
    }
  }

  /** The numeral of `n` fits in `k` digits exactly when `n < 10^k`. */
  lemma {:induction false} DigitsFitWidth(n: nat, k: nat)
    requires k >= 1
    ensures |Digits(n)| <= k <==> n < Pow10(k)
    decreases n
  {
    if n >= 10 {
      if k == 1 {
        assert |Digits(n)| >= 2;
      } else {
        DigitsFitWidth(n / 10, k - 1);
      }
    }
  }

  /** `k` zero characters. */
  function Zeros(k: nat): (z: string)
    ensures |z| == k && IsDigits(z)
    ensures forall i :: 0 <= i < k ==> z[i] == '0'
  {
    seq(k, _ => '0')
  }

  lemma {:induction false} ValueOfZeros(k: nat)
    ensures ValueOf(Zeros(k)) == 0
    decreases k
  {
    if k > 0 {
      assert Zeros(k)[..k - 1] == Zeros(k - 1);
      ValueOfZeros(k - 1);
    }
  }

  /** Leading zeros do not change the value of a numeral. */
  lemma {:induction false} ValueOfLeadingZeros(k: nat, s: string)
    requires IsDigits(s)
    ensures IsDigits(Zeros(k) + s)
    ensures ValueOf(Zeros(k) + s) == ValueOf(s)
    decreases |s|
  {
    var t := Zeros(k) + s;
    assert IsDigits(t) by {
      forall i | 0 <= i < |t| ensures '0' <= t[i] <= '9' {
        if i >= k { assert t[i] == s[i - k]; }
      }
    }
    if s == [] {
      assert t == Zeros(k);
      ValueOfZeros(k);
    } else {
      ValueOfLeadingZeros(k, s[..|s| - 1]);
      assert t[..|t| - 1] == Zeros(k) + s[..|s| - 1];
    }
  }

  /**
   * Python's `format(n, "0{width}d")` for `n >= 0`: the numeral of `n`,
   * left-padded with '0' up to `width` characters, never truncated.
   */
  function ZeroPadded(n: nat, width: nat): (s: string)
    requires width >= 1
    ensures IsDigits(s) && ValueOf(s) == n
    ensures |s| == if |Digits(n)| < width then width else |Digits(n)|
    ensures |s| >= width
    ensures |s| > width ==> s[0] != '0'
  {
    var d := Digits(n);
    ValueOfDigits(n);
    if |d| < width then
      ValueOfLeadingZeros(width - |d|, d);
      Zeros(width - |d|) + d
    else
      d
  }

  /** Python's `str(i)` for an integer: an optional minus sign, then the numeral. */
  function IntToString(i: int): (s: string)
  {
    if i < 0 then "-" + Digits(-i) else Digits(i)
  }

  /** The `str` of an integer holds no space, so a space ends it inside a sentence. */
  lemma NoSpaceInIntToString(i: int)
    ensures forall j :: 0 <= j < |IntToString(i)| ==> IntToString(i)[j] != ' '
  {
  }

  /** Reference parser for Python integer literals as `str` writes them. */
  function ParseInt(s: string): Option<int> {
    if |s| >= 2 && s[0] == '-' && IsDigits(s[1..]) then Some(-(ValueOf(s[1..]) as int))
    else if |s| >= 1 && IsDigits(s) then Some(ValueOf(s))
    else None
  }

  /** `str` of an integer parses back to that integer. */
  lemma IntToStringRoundTrip(i: int)
    ensures ParseInt(IntToString(i)) == Some(i)
  {
    var s := IntToString(i);
    if i < 0 {
      ValueOfDigits(-i);
      assert s[1..] == Digits(-i);
    } else {
      ValueOfDigits(i);
    }
  }

  /** What an f-string shows for an optional string argument (`None` when absent). */
  function ShowText(v: Option<string>): string {
    match v
    case Some(s) => s
    case None => "None"
  }

  /** What an f-string shows for an optional integer argument (`None` when absent). */
  function ShowInt(v: Option<int>): string {
    match v
    case Some(i) => IntToString(i)
    case None => "None"
  }
}
