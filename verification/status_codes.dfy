/** HTTP status codes as the client sees them: a three-digit code, its success class and its
    textual form. The range 100..999 is the set of codes the transport accepts; success is
    the 2xx (Successful) class of section 15.3 of RFC 9110. */
module StatusCodes {
  import opened Wrappers

  type StatusCode = c: int | 100 <= c <= 999 witness 200

  const OK: StatusCode := 200
  const BAD_REQUEST: StatusCode := 400
  const UNAUTHORIZED: StatusCode := 401

  /** The 2xx (Successful) class: 200 through 299. */
  predicate IsSuccess(c: StatusCode) {
    200 <= c <= 299
  }

  predicate IsDigit(ch: char) {
    '0' <= ch <= '9'
  }

  function DigitChar(d: int): (ch: char)
    requires 0 <= d < 10
    ensures IsDigit(ch) && DigitValue(ch) == d
  {
    ('0' as int + d) as char
  }

  function DigitValue(ch: char): int
    requires IsDigit(ch)
  {
    ch as int - '0' as int
  }

  /** The decimal value of a three-character string of digits. */
  function ValueOf3(s: string): int
    requires |s| == 3 && IsDigit(s[0]) && IsDigit(s[1]) && IsDigit(s[2])
  {
    100 * DigitValue(s[0]) + 10 * DigitValue(s[1]) + DigitValue(s[2])
  }

  /** Division by a constant base has one quotient and remainder. */
  lemma DivModBy(n: int, base: int, q: int, r: int)
    requires base == 10 || base == 100
    requires 0 <= r < base && n == base * q + r
    ensures n / base == q && n % base == r
  {
  }

  /** The textual form of a status code (`StatusCode::as_str`): its three decimal digits,
      the first of which is never zero. */
  function AsStr(c: StatusCode): (s: string)
    ensures |s| == 3 && IsDigit(s[0]) && IsDigit(s[1]) && IsDigit(s[2])
    ensures s[0] != '0'
    ensures ValueOf3(s) == c
  {
    var rest := c % 100;
    [DigitChar(c / 100), DigitChar(rest / 10), DigitChar(rest % 10)]
  }

  /** Reads a status code back from its textual form; `None` for anything `AsStr` cannot
      produce. */
  function ParseStatus(s: string): (r: Option<StatusCode>)
    ensures r.Some? <==> |s| == 3 && IsDigit(s[0]) && IsDigit(s[1]) && IsDigit(s[2]) && s[0] != '0'
  {
    if |s| == 3 && IsDigit(s[0]) && IsDigit(s[1]) && IsDigit(s[2]) && s[0] != '0' then
      Some(ValueOf3(s))
    else
      None
  }

  /** Reading back the text of a code gives the code. */
  lemma AsStrRoundTrip(c: StatusCode)
    ensures ParseStatus(AsStr(c)) == Some(c)
  {
  }

  /** Every text that reads as a code is that code's text, so the textual form is canonical. */
  lemma ParseStatusRoundTrip(s: string)
    requires ParseStatus(s).Some?
    ensures AsStr(ParseStatus(s).value) == s
  {
    var c := ValueOf3(s);
    var a, b, d := DigitValue(s[0]), DigitValue(s[1]), DigitValue(s[2]);
    DivModBy(c, 100, a, 10 * b + d);
    DivModBy(10 * b + d, 10, b, d);
    var t := AsStr(c);
    assert t[0] == s[0] && t[1] == s[1] && t[2] == s[2];
  }

  /** Distinct codes have distinct texts. */
  lemma AsStrInjective(c1: StatusCode, c2: StatusCode)
    ensures AsStr(c1) == AsStr(c2) <==> c1 == c2
  {
  }

  /** The fixed text of `StatusCode::BAD_REQUEST`. */
  lemma BadRequestText()
    ensures AsStr(BAD_REQUEST) == "400"
  {
  }
}
