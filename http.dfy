/** Plain HTTP vocabulary shared by the request and response envelopes:
    methods, versions, URIs, header maps, status-code validity and the
    decimal text used by Content-Length. */
module Http {
  import opened Wrappers

  /** The request methods hyper recognises. */
  datatype Method = GET | POST | PUT | PATCH | DELETE | HEAD | OPTIONS | CONNECT | TRACE

  datatype Version = Http09 | Http10 | Http11 | Http2

  /** A URI as far as dispatch looks at it: the path and the optional query string. */
  datatype Uri = Uri(path: string, query: Option<string>)

  /** Header names are stored lower-case (hyper compares them case-insensitively). */
  type Headers = map<string, string>

  const CONTENT_TYPE: string := "content-type"
  const CONTENT_LENGTH: string := "content-length"
  const LOCATION: string := "location"
  const APPLICATION_JSON: string := "application/json"

  /** One more than the largest `u64`. */
  const U64_LIMIT: nat := 0x1_0000_0000_0000_0000

  /** The codes `StatusCode::from_u16` accepts; any other code makes the
      `unwrap()` after it panic. */
  predicate ValidStatus(code: nat) {
    100 <= code < 600
  }

  predicate VisibleAscii(c: char) {
    c == '\t' || (' ' <= c && c < '\U{7f}')
  }

  /** `HeaderValue::to_str`: succeeds only on visible ASCII. */
  function HeaderToStr(v: string): (r: Option<string>)
    ensures r.Some? <==> forall i :: 0 <= i < |v| ==> VisibleAscii(v[i])
    ensures r.Some? ==> r.value == v
  {
    if forall i :: 0 <= i < |v| ==> VisibleAscii(v[i]) then Some(v) else None
  }

  predicate IsDigit(c: char) {
    '0' <= c <= '9'
  }

  predicate AllDigits(s: string) {
    forall i :: 0 <= i < |s| ==> IsDigit(s[i])
  }

  function DigitChar(d: nat): char
    requires d < 10
  {
    "0123456789"[d]
  }

  function DigitValue(c: char): nat
    requires IsDigit(c)
  {
    (c as int - '0' as int) as nat
  }

  /** Decimal rendering of a natural number, as `to_string()` prints it. */
  function Decimal(n: nat): (s: string)
    decreases n
  {
    if n < 10 then [DigitChar(n)] else Decimal(n / 10) + [DigitChar(n % 10)]
  }

  /** The value of a string of decimal digits. */
  function DigitsValue(s: string): nat
    requires AllDigits(s)
    decreases |s|
  {
    if s == [] then 0 else DigitsValue(s[..|s| - 1]) * 10 + DigitValue(s[|s| - 1])
  }

  /** `str::parse::<u64>`: an optional `+`, then at least one digit, and a
      value that fits in 64 bits. */
  function ParseU64(s: string): (r: Option<nat>)
    ensures r.Some? ==> r.value < U64_LIMIT
    ensures s == [] ==> r.None?
  {
    var digits := if |s| > 0 && s[0] == '+' then s[1..] else s;
    if |digits| == 0 || !AllDigits(digits) then None
    else if DigitsValue(digits) < U64_LIMIT then Some(DigitsValue(digits))
    else None
  }

  /** Decimal writes only digits, at least one, and they read back as n. */
  lemma {:induction false} DecimalDigits(n: nat)
    ensures |Decimal(n)| > 0 && AllDigits(Decimal(n))
    ensures DigitsValue(Decimal(n)) == n
    decreases n
  {
    if n >= 10 {
      DecimalDigits(n / 10);
      var d := Decimal(n / 10);
      var s := d + [DigitChar(n % 10)];
      assert s[..|s| - 1] == d;
      assert DigitValue(DigitChar(n % 10)) == n % 10;
    } else {
      assert DigitValue(DigitChar(n)) == n;
    }
  }

  /** A number written with `to_string()` is valid header text, and reads as itself. */
  lemma DecimalIsHeaderText(n: nat)
    ensures HeaderToStr(Decimal(n)) == Some(Decimal(n))
  {
    DecimalDigits(n);
    forall i | 0 <= i < |Decimal(n)|
      ensures VisibleAscii(Decimal(n)[i])
    {
      assert IsDigit(Decimal(n)[i]);
    }
  }

  /** Round trip: a number written with `to_string()` parses back with `parse::<u64>()`. */
  lemma ParseDecimal(n: nat)
    requires n < U64_LIMIT
    ensures ParseU64(Decimal(n)) == Some(n)
  {
    DecimalDigits(n);
  }
}
