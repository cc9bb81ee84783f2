/** The few Python runtime notions the repository collector depends on:
    which exception was raised, what a call returned, the truthiness of an
    optional string, and `str()` of an integer together with its inverse `int()`. */
module Python {

  datatype Option<+T> = None | Some(value: T)

  /** The exception classes the collector tells apart. `HTTPError` is a
      `requests.exceptions.RequestException`; `RequestError` stands for every
      other `RequestException` (connection errors, timeouts, ...); `KeyError`
      is a failed dictionary lookup; `Other` is any exception outside the
      `requests` hierarchy. */
  datatype PyException =
    | HTTPError
    | RequestError
    | KeyError
    | Other(name: string)

  /** What a Python call does: it returns a value or raises. */
  datatype Result<+T> = Ok(value: T) | Raised(error: PyException)

  /** Python truthiness of an `Optional[str]`: `None` and `""` are falsy. */
  predicate Truthy(s: Option<string>) {
    s.Some? && s.value != ""
  }

  predicate IsDigit(c: char) {
    '0' <= c <= '9'
  }

  predicate IsDigits(s: string) {
    forall i :: 0 <= i < |s| ==> IsDigit(s[i])
  }

  function DigitChar(d: nat): (c: char)
    requires d < 10
    ensures IsDigit(c)
    ensures c == '0' <==> d == 0
  {
    ('0' as int + d) as char
  }

  function DigitValue(c: char): (d: nat)
    requires IsDigit(c)
    ensures d < 10 && DigitChar(d) == c
  {
    c as int - '0' as int
  }

  /** `str(n)` of a non-negative int: decimal digits without a leading zero. */
  function NatToDecimal(n: nat): (s: string)
    ensures |s| > 0 && IsDigits(s)
    ensures |s| > 1 ==> s[0] != '0'
    decreases n
  {
    if n < 10 then [DigitChar(n)] else NatToDecimal(n / 10) + [DigitChar(n % 10)]
  }

  /** The value of a string of decimal digits, most significant first. */
  function DecimalValue(s: string): nat
    requires IsDigits(s)
    decreases |s|
  {
    if s == [] then 0 else DecimalValue(s[..|s| - 1]) * 10 + DigitValue(s[|s| - 1])
  }

  /** `str(n)` of any Python int. */
  function IntToStr(n: int): (s: string)
    ensures |s| > 0
    ensures s[0] == '-' <==> n < 0
  {
    if n < 0 then "-" + NatToDecimal(-n) else NatToDecimal(n)
  }

  /** The strings `int()` accepts in the shape `str()` writes them: an optional
      minus sign followed by at least one decimal digit. */
  predicate IsIntLiteral(s: string) {
    if |s| > 0 && s[0] == '-' then |s| > 1 && IsDigits(s[1..]) else |s| > 0 && IsDigits(s)
  }

  /** `int(s)` on those strings. */
  function ParseInt(s: string): int
    requires IsIntLiteral(s)
  {
    if s[0] == '-' then 0 - DecimalValue(s[1..]) else DecimalValue(s)
  }

  lemma {:induction false} NatToDecimalRoundTrip(n: nat)
    ensures DecimalValue(NatToDecimal(n)) == n
    decreases n
  {
    if n >= 10 {
      var s := NatToDecimal(n);
      assert s[..|s| - 1] == NatToDecimal(n / 10);
      NatToDecimalRoundTrip(n / 10);
    }
  }

  /** `int(str(n)) == n`: `str` loses nothing about an int. */
  lemma IntToStrRoundTrip(n: int)
    ensures IsIntLiteral(IntToStr(n)) && ParseInt(IntToStr(n)) == n
  {
    if n < 0 {
      assert IntToStr(n)[1..] == NatToDecimal(-n);
      NatToDecimalRoundTrip(-n);
    } else {
      NatToDecimalRoundTrip(n);
    }
  }

  /** Two ints have the same `str` exactly when they are equal. */
  lemma IntToStrInjective(a: int, b: int)
    ensures IntToStr(a) == IntToStr(b) <==> a == b
  {
    IntToStrRoundTrip(a);
    IntToStrRoundTrip(b);
  }
}
