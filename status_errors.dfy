/** The package's error taxonomy: six error codes, the `statusError` record
    that carries one of them, its textual rendering, and the `Code` accessor
    that extracts a code from any Go `error`. */
module StatusErrors {
  import opened GoTypes

  newtype int32 = x: int | -0x8000_0000 <= x < 0x8000_0000

  const CODE_UNKNOWN: int32 := 0
  const CODE_INVALID_BODY: int32 := 1
  /** Also spelled `CodeBadResponseCode` at the one site that reports a bad HTTP status. */
  const CODE_BAD_RESPONSE_STATUS: int32 := 2
  const CODE_ENCODING_ERROR: int32 := 3
  const CODE_INVALID_FORM: int32 := 4
  const CODE_MISSING_URL: int32 := 5

  /** The six codes, in declaration order: they are the distinct values 0 to 5. */
  function AllCodes(): (cs: seq<int32>)
    ensures |cs| == 6 && cs[0] == CODE_UNKNOWN
    ensures forall i :: 0 <= i < |cs| ==> cs[i] as int == i
  {
    [CODE_UNKNOWN, CODE_INVALID_BODY, CODE_BAD_RESPONSE_STATUS,
     CODE_ENCODING_ERROR, CODE_INVALID_FORM, CODE_MISSING_URL]
  }

  /** A Go `error` as this package sees it: either its own `statusError`
      (a code, the HTTP status it carries or CODE_UNKNOWN, and a message) or
      an error made elsewhere (an encoder, the transport, a validator), known
      only by the text its `Error()` method returns. */
  datatype Error =
    | StatusError(code: int32, statusCode: int, message: GoString)
    | ForeignError(text: GoString)

  /** The `(value, error)` pair of a Go function with exactly one of the two set. */
  datatype Result<+T> = Ok(value: T) | Err(error: Error)

  /** `Code(err)`: the code of a `statusError`, CODE_UNKNOWN for nil and for every other error. */
  function Code(err: Option<Error>): (c: int32)
    ensures err.None? ==> c == CODE_UNKNOWN
    ensures err.Some? && err.value.StatusError? ==> c == err.value.code
    ensures err.Some? && err.value.ForeignError? ==> c == CODE_UNKNOWN
  {
    match err
    case None => CODE_UNKNOWN
    case Some(StatusError(code, _, _)) => code
    case Some(ForeignError(_)) => CODE_UNKNOWN
  }

  // ---------------------------------------------------------------------------
  // Decimal rendering of integers, as Go's `%v` verb prints an integer

  const MINUS: byte := 45
  const SPACE: byte := 32

  predicate IsDigit(b: byte) {
    48 <= b <= 57
  }

  predicate AllDigits(s: GoString) {
    forall i :: 0 <= i < |s| ==> IsDigit(s[i])
  }

  function Digits(n: nat): GoString
    decreases n
  {
    if n < 10 then [(48 + n) as byte] else Digits(n / 10) + [(48 + n % 10) as byte]
  }

  /** The decimal text of `n`: a minus sign for negative numbers, then the
      digits of its magnitude without leading zeros. */
  function Decimal(n: int): GoString {
    if n < 0 then [MINUS] + Digits(-n) else Digits(n)
  }

  function ParseDigits(s: GoString): nat
    requires AllDigits(s)
  {
    if s == [] then 0 else ParseDigits(s[..|s| - 1]) * 10 + (s[|s| - 1] as int - 48)
  }

  /** Reads back the text `Decimal` writes: an optional minus sign and at least one digit. */
  function ParseDecimal(s: GoString): Option<int> {
    if |s| > 1 && s[0] == MINUS && AllDigits(s[1..]) then Some(-(ParseDigits(s[1..]) as int))
    else if |s| > 0 && AllDigits(s) then Some(ParseDigits(s))
    else None
  }

  lemma {:induction false} DigitsRoundTrip(n: nat)
    ensures |Digits(n)| > 0 && AllDigits(Digits(n))
    ensures ParseDigits(Digits(n)) == n
  {
    if n >= 10 {
      DigitsRoundTrip(n / 10);
      var s := Digits(n);
      assert s[..|s| - 1] == Digits(n / 10);
    }
  }

  /** Decimal rendering loses nothing: parsing it gives the number back. */
  lemma DecimalRoundTrip(n: int)
    ensures ParseDecimal(Decimal(n)) == Some(n)
    ensures forall i :: 0 <= i < |Decimal(n)| ==> Decimal(n)[i] != SPACE
  {
    if n < 0 {
      DigitsRoundTrip(-n);
      assert Decimal(n)[1..] == Digits(-n);
    } else {
      DigitsRoundTrip(n);
    }
  }

  // ---------------------------------------------------------------------------
  // `Error()` of a statusError, and the text of any error

  const ERROR_PREFIX: GoString := Ascii("request error: code = ")
  const MESSAGE_LABEL: GoString := Ascii(" message = ")

  /** The text of `err.Error()`. For a `statusError`: the prefix, the decimal
      code, the message label and the message; the status code is not shown. */
  function ErrorText(e: Error): GoString {
    match e
    case StatusError(code, _, message) => ERROR_PREFIX + Decimal(code as int) + MESSAGE_LABEL + message
    case ForeignError(text) => text
  }

  /** The index of the first `b` in `s`, or `|s|` when there is none. */
  function IndexOf(s: GoString, b: byte): (i: nat)
    ensures i <= |s|
    ensures i < |s| ==> s[i] == b
    ensures forall j :: 0 <= j < i ==> s[j] != b
  {
    if s == [] then 0 else if s[0] == b then 0 else 1 + IndexOf(s[1..], b)
  }

  /** Reads the code and the message back out of a rendered `statusError`. */
  function ParseErrorText(s: GoString): Option<(int, GoString)> {
    if |s| < |ERROR_PREFIX| || s[..|ERROR_PREFIX|] != ERROR_PREFIX then None
    else
      var rest := s[|ERROR_PREFIX|..];
      var j := IndexOf(rest, SPACE);
      if |rest| - j < |MESSAGE_LABEL| || rest[j..j + |MESSAGE_LABEL|] != MESSAGE_LABEL then None
      else match ParseDecimal(rest[..j])
        case Some(code) => Some((code, rest[j + |MESSAGE_LABEL|..]))
        case None => None
  }

  /** The rendering of a `statusError` determines its code and its message. */
  lemma ErrorTextRoundTrip(code: int32, statusCode: int, message: GoString)
    ensures ParseErrorText(ErrorText(StatusError(code, statusCode, message))) == Some((code as int, message))
  {
    var d := Decimal(code as int);
    DecimalRoundTrip(code as int);
    var s := ERROR_PREFIX + d + MESSAGE_LABEL + message;
    assert s[..|ERROR_PREFIX|] == ERROR_PREFIX;
    var rest := s[|ERROR_PREFIX|..];
    assert rest == d + MESSAGE_LABEL + message;
    assert MESSAGE_LABEL[0] == SPACE;
    assert rest[|d|] == SPACE;
    var j := IndexOf(rest, SPACE);
    assert j == |d|;
    assert rest[j..j + |MESSAGE_LABEL|] == MESSAGE_LABEL;
    assert rest[..j] == d;
    assert rest[j + |MESSAGE_LABEL|..] == message;
  }
}
