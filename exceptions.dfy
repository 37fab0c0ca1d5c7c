/** The API error raised for HTTP error responses, and its message. */
module Exceptions {
  import opened Common

  /** An API error: the URL, the HTTP status code, and the decoded JSON
      response body (its string-valued fields). */
  datatype ApiError = ApiError(url: string, statusCode: int, response: map<string, string>)

  const Prefix: string := "HTTP Error "

  // ---- `%s` of an integer ----

  predicate IsDigit(c: char)
  {
    '0' <= c <= '9'
  }

  function DigitChar(d: nat): (c: char)
    requires d < 10
    ensures IsDigit(c)
  {
    ('0' as int + d) as char
  }

  function DigitValue(c: char): (d: nat)
    requires IsDigit(c)
    ensures d < 10 && DigitChar(d) == c
  {
    c as int - '0' as int
  }

  predicate AllDigits(s: string)
  {
    forall i :: 0 <= i < |s| ==> IsDigit(s[i])
  }

  /** Decimal digits of a natural number, most significant first, without leading zeros. */
  function Digits(n: nat): (s: string)
    ensures |s| > 0 && AllDigits(s)
    decreases n
  {
    if n < 10 then [DigitChar(n)] else Digits(n / 10) + [DigitChar(n % 10)]
  }

  /** `'%s' % n` for an integer `n` */
  function Decimal(n: int): string
  {
    if n < 0 then "-" + Digits(-n) else Digits(n)
  }

  /** The number a string of decimal digits denotes. */
  function ValueOf(s: string): nat
    requires AllDigits(s)
    decreases |s|
  {
    if s == [] then 0 else ValueOf(s[..|s| - 1]) * 10 + DigitValue(s[|s| - 1])
  }

  lemma {:induction false} DigitsValue(n: nat)
    ensures ValueOf(Digits(n)) == n
    decreases n
  {
    if n >= 10 {
      var s := Digits(n / 10);
      assert Digits(n) == s + [DigitChar(n % 10)];
      assert Digits(n)[..|Digits(n)| - 1] == s;
      DigitsValue(n / 10);
    }
  }

  /** Length of the longest prefix made of decimal digits. */
  function DigitRun(s: string): (k: nat)
    ensures k <= |s|
    decreases |s|
  {
    if s == [] || !IsDigit(s[0]) then 0 else 1 + DigitRun(s[1..])
  }

  lemma {:induction false} DigitRunStopsAtNonDigit(s: string, rest: string)
    requires AllDigits(s)
    requires rest == [] || !IsDigit(rest[0])
    ensures DigitRun(s + rest) == |s|
    decreases |s|
  {
    if s != [] {
      assert (s + rest)[1..] == s[1..] + rest;
      DigitRunStopsAtNonDigit(s[1..], rest);
    }
  }

  // ---- the message ----

  /** The detail the message reports: `error` first, then `message`. */
  function Detail(e: ApiError): Option<string>
  {
    if "error" in e.response then Some(e.response["error"])
    else if "message" in e.response then Some(e.response["message"])
    else None
  }

  function Message(e: ApiError): (s: string)
    ensures "error" in e.response ==> s == Prefix + Decimal(e.statusCode) + ": " + e.response["error"]
    ensures "error" !in e.response && "message" in e.response ==>
      s == Prefix + Decimal(e.statusCode) + ": " + e.response["message"]
    ensures "error" !in e.response && "message" !in e.response ==> s == Prefix + Decimal(e.statusCode)
  {
    if "error" in e.response then Prefix + Decimal(e.statusCode) + ": " + e.response["error"]
    else if "message" in e.response then Prefix + Decimal(e.statusCode) + ": " + e.response["message"]
    else Prefix + Decimal(e.statusCode)
  }

  /** Reads a status code and a detail back out of a message. */
  function ParseMessage(s: string): Option<(int, Option<string>)>
  {
    if |s| < |Prefix| || s[..|Prefix|] != Prefix then None
    else ParseSigned(s[|Prefix|..])
  }

  /** An optional minus sign, then what `ParseUnsigned` reads. */
  function ParseSigned(t: string): Option<(int, Option<string>)>
  {
    if |t| > 0 && t[0] == '-' then
      match ParseUnsigned(t[1..])
      case None => None
      case Some((n, d)) => Some((-(n as int), d))
    else
      match ParseUnsigned(t)
      case None => None
      case Some((n, d)) => Some((n as int, d))
  }

  /** A run of digits, then nothing or `": "` and the detail. */
  function ParseUnsigned(u: string): Option<(nat, Option<string>)>
  {
    var k := DigitRun(u);
    if k == 0 then None
    else
      assert AllDigits(u[..k]) by { DigitRunIsDigits(u); }
      var rest := u[k..];
      if rest == [] then Some((ValueOf(u[..k]), None))
      else if |rest| >= 2 && rest[..2] == ": " then Some((ValueOf(u[..k]), Some(rest[2..])))
      else None
  }

  /** What follows the code in a message that reports `detail`. */
  function Tail(detail: Option<string>): string
  {
    if detail.Some? then ": " + detail.value else ""
  }

  lemma {:induction false} DigitRunIsDigits(s: string)
    ensures AllDigits(s[..DigitRun(s)])
    decreases |s|
  {
    if s != [] && IsDigit(s[0]) {
      DigitRunIsDigits(s[1..]);
      assert s[..DigitRun(s)] == [s[0]] + s[1..][..DigitRun(s[1..])];
    }
  }

  lemma UnsignedRoundTrip(n: nat, detail: Option<string>)
    ensures ParseUnsigned(Digits(n) + Tail(detail)) == Some((n, detail))
  {
    var u := Digits(n) + Tail(detail);
    DigitRunStopsAtNonDigit(Digits(n), Tail(detail));
    assert u[..|Digits(n)|] == Digits(n);
    assert u[|Digits(n)|..] == Tail(detail);
    DigitsValue(n);
    if detail.Some? {
      assert Tail(detail)[..2] == ": " && Tail(detail)[2..] == detail.value;
    }
  }

  lemma NegativeRoundTrip(code: int, detail: Option<string>)
    requires code < 0
    ensures ParseSigned("-" + (Digits(-code) + Tail(detail))) == Some((code, detail))
  {
    var n: nat := -code;
    var t := "-" + (Digits(n) + Tail(detail));
    assert t[1..] == Digits(n) + Tail(detail);
    UnsignedRoundTrip(n, detail);
    assert t[0] == '-' && ParseUnsigned(t[1..]) == Some((n, detail));
    assert ParseSigned(t) == Some((-(n as int), detail));
    assert -(n as int) == code;
    assert ParseSigned(t) == Some((code, detail));
  }

  lemma NonNegativeRoundTrip(n: nat, detail: Option<string>)
    ensures ParseSigned(Digits(n) + Tail(detail)) == Some((n as int, detail))
  {
    var t := Digits(n) + Tail(detail);
    assert t[0] == Digits(n)[0];
    UnsignedRoundTrip(n, detail);
  }

  /** A negative code is written as a minus sign before the digits of its magnitude. */
  lemma NegativeDecimal(code: int, detail: Option<string>)
    requires code < 0
    ensures Decimal(code) + Tail(detail) == "-" + (Digits(-code) + Tail(detail))
  {
    assert Decimal(code) == "-" + Digits(-code);
  }

  lemma SignedRoundTrip(code: int, detail: Option<string>)
    ensures ParseSigned(Decimal(code) + Tail(detail)) == Some((code, detail))
  {
    if code < 0 {
      NegativeDecimal(code, detail);
      NegativeRoundTrip(code, detail);
    } else {
      NonNegativeRoundTrip(code, detail);
    }
  }

  /** The message determines both the status code and the reported detail. */
  lemma MessageRoundTrip(e: ApiError)
    ensures ParseMessage(Message(e)) == Some((e.statusCode, Detail(e)))
  {
    var body := Decimal(e.statusCode) + Tail(Detail(e));
    var s := Message(e);
    assert s == Prefix + body;
    assert s[..|Prefix|] == Prefix && s[|Prefix|..] == body;
    SignedRoundTrip(e.statusCode, Detail(e));
  }
}
