/**
 * `fetchData` (src/App.js:27-46): the query URL for one year and the outcome
 * of the request. The network call itself and `res.json()` are not modelled;
 * what they deliver is the `Transport` value handed to `FetchOutcome`.
 */
module Fetcher {
  import opened Wrappers
  import opened Accidents

  // ---------------------------------------------------------------------
  // Decimal rendering of an integer, as a JavaScript template literal
  // renders an integral Number.
  // ---------------------------------------------------------------------

  predicate IsDigit(c: char) {
    '0' <= c <= '9'
  }

  predicate AllDigits(s: string) {
    forall i :: 0 <= i < |s| ==> IsDigit(s[i])
  }

  function DigitChar(d: nat): (c: char)
    requires d < 10
    ensures IsDigit(c)
  {
    ('0' as int + d) as char
  }

  function DigitValue(c: char): (d: nat)
    requires IsDigit(c)
    ensures d < 10 && DigitChar(d) == c
  {
    c as int - '0' as int
  }

  /** The base-10 digits of `n`, most significant first, with no leading zero. */
  function Digits(n: nat): (s: string)
    ensures |s| > 0 && AllDigits(s)
    ensures |s| > 1 ==> s[0] != '0'
    decreases n
  {
    if n < 10 then [DigitChar(n)] else Digits(n / 10) + [DigitChar(n % 10)]
  }

  /** Reads a string of digits back as a number. */
  function ParseDigits(s: string): nat
    requires AllDigits(s)
    decreases |s|
  {
    if s == [] then 0 else ParseDigits(s[..|s| - 1]) * 10 + DigitValue(s[|s| - 1])
  }

  lemma {:induction false} ParseDigitsOfDigits(n: nat)
    ensures ParseDigits(Digits(n)) == n
    decreases n
  {
    var s := Digits(n);
    if n >= 10 {
      ParseDigitsOfDigits(n / 10);
      assert s[..|s| - 1] == Digits(n / 10);
    } else {
      assert s[..|s| - 1] == [];
    }
  }

  /** `${y}` for an integral year `y`: an optional minus sign, then the digits of |y|. */
  function Decimal(y: int): (s: string)
    ensures |s| > 0
    ensures s[0] == '-' <==> y < 0
    ensures y >= 0 ==> AllDigits(s)
    ensures y < 0 ==> AllDigits(s[1..]) && |s| > 1
    ensures y >= 0 && |s| > 1 ==> s[0] != '0'
    ensures y < 0 ==> s[1] != '0'
  {
    if y < 0 then "-" + Digits(-y) else Digits(y)
  }

  /** Reads a rendering produced by `Decimal` back as an integer. */
  function ParseDecimal(s: string): int
    requires |s| > 0
    requires if s[0] == '-' then AllDigits(s[1..]) else AllDigits(s)
  {
    if s[0] == '-' then -(ParseDigits(s[1..]) as int) else ParseDigits(s)
  }

  lemma DecimalRoundTrip(y: int)
    ensures ParseDecimal(Decimal(y)) == y
  {
    if y < 0 {
      ParseDigitsOfDigits(-y);
      assert Decimal(y)[1..] == Digits(-y);
    } else {
      ParseDigitsOfDigits(y);
    }
  }

  /** Distinct years are rendered as distinct strings. */
  lemma DecimalInjective(y1: int, y2: int)
    ensures Decimal(y1) == Decimal(y2) <==> y1 == y2
  {
    if Decimal(y1) == Decimal(y2) {
      DecimalRoundTrip(y1);
      DecimalRoundTrip(y2);
    }
  }

  // ---------------------------------------------------------------------
  // The request URL.
  // ---------------------------------------------------------------------

  const Endpoint: string :=
    "https://apis.data.go.kr/B552061/frequentzoneOldman/getRestFrequentzoneOldman"
  const SiDo: int := 28
  const GuGun: int := 237
  const ResultType: string := "json"
  const NumOfRows: int := 10
  const PageNo: int := 1

  /**
   * The service key as the template literal renders it: the environment
   * variable's text, or "undefined" when it is not set.
   */
  function KeyText(serviceKey: Option<string>): (s: string)
    ensures serviceKey.Some? ==> s == serviceKey.value
    ensures serviceKey.None? ==> s == "undefined"
  {
    match serviceKey
    case Some(k) => k
    case None => "undefined"
  }

  /**
   * The URL `fetchData(searchYearCd)` requests, written as the source's
   * template: the endpoint, "?", and exactly the seven parameters in order.
   */
  function RequestUrl(serviceKey: Option<string>, searchYearCd: int): (url: string)
    ensures url == Endpoint + "?" + QueryString(QueryParams(serviceKey, searchYearCd))
    ensures url == UrlPrefix(serviceKey) + Decimal(searchYearCd) + UrlSuffix()
  {
    var u2 := Endpoint + "?serviceKey=" + KeyText(serviceKey) + "&searchYearCd=" + Decimal(searchYearCd);
    FirstTwoParams(serviceKey, searchYearCd);
    var u5 := u2 + "&siDo=" + Decimal(SiDo) + "&guGun=" + Decimal(GuGun) + "&type=" + ResultType;
    MiddleParams(serviceKey, searchYearCd, u2);
    LastParams(serviceKey, searchYearCd, u5);
    SplitAtYear(serviceKey, searchYearCd);
    Endpoint + "?serviceKey=" + KeyText(serviceKey)
      + "&searchYearCd=" + Decimal(searchYearCd)
      + "&siDo=" + Decimal(SiDo)
      + "&guGun=" + Decimal(GuGun)
      + "&type=" + ResultType
      + "&numOfRows=" + Decimal(NumOfRows)
      + "&pageNo=" + Decimal(PageNo)
  }

  /** The source's template regrouped around the year. */
  lemma SplitAtYear(serviceKey: Option<string>, searchYearCd: int)
    ensures Endpoint + "?serviceKey=" + KeyText(serviceKey)
      + "&searchYearCd=" + Decimal(searchYearCd)
      + "&siDo=" + Decimal(SiDo)
      + "&guGun=" + Decimal(GuGun)
      + "&type=" + ResultType
      + "&numOfRows=" + Decimal(NumOfRows)
      + "&pageNo=" + Decimal(PageNo)
      == UrlPrefix(serviceKey) + Decimal(searchYearCd) + UrlSuffix()
  {
    var w := UrlPrefix(serviceKey) + Decimal(searchYearCd);
    var s1 := "&siDo=" + Decimal(SiDo);
    var s2 := s1 + "&guGun=";
    var s3 := s2 + Decimal(GuGun);
    var s4 := s3 + "&type=";
    var s5 := s4 + ResultType;
    var s6 := s5 + "&numOfRows=";
    var s7 := s6 + Decimal(NumOfRows);
    var s8 := s7 + "&pageNo=";
    ConcatAssoc(w, "&siDo=", Decimal(SiDo));
    ConcatAssoc(w, s1, "&guGun=");
    ConcatAssoc(w, s2, Decimal(GuGun));
    ConcatAssoc(w, s3, "&type=");
    ConcatAssoc(w, s4, ResultType);
    ConcatAssoc(w, s5, "&numOfRows=");
    ConcatAssoc(w, s6, Decimal(NumOfRows));
    ConcatAssoc(w, s7, "&pageNo=");
    ConcatAssoc(w, s8, Decimal(PageNo));
  }

  /** Concatenation regroups. */
  lemma ConcatAssoc(a: string, b: string, c: string)
    ensures a + b + c == a + (b + c)
  {
  }

  /** A `name=value` query parameter. */
  datatype Param = Param(name: string, value: string)

  /** The query parameters, in request order, as an independent description of the URL. */
  function QueryParams(serviceKey: Option<string>, searchYearCd: int): (ps: seq<Param>)
    ensures |ps| == 7
  {
    [ Param("serviceKey", KeyText(serviceKey)),
      Param("searchYearCd", Decimal(searchYearCd)),
      Param("siDo", Decimal(SiDo)),
      Param("guGun", Decimal(GuGun)),
      Param("type", ResultType),
      Param("numOfRows", Decimal(NumOfRows)),
      Param("pageNo", Decimal(PageNo)) ]
  }

  /** `name1=value1&name2=value2&...`, built left to right. */
  function QueryString(ps: seq<Param>): string
    decreases |ps|
  {
    if ps == [] then ""
    else if |ps| == 1 then ps[0].name + "=" + ps[0].value
    else QueryString(ps[..|ps| - 1]) + "&" + (ps[|ps| - 1].name + "=" + ps[|ps| - 1].value)
  }

  /** Appending one more `&name=value` to a URL that already ends in a query string. */
  lemma AppendParam(ps: seq<Param>, n: nat, url: string, piece: string)
    requires 1 <= n < |ps|
    requires url == Endpoint + "?" + QueryString(ps[..n])
    requires piece == "&" + ps[n].name + "="
    ensures url + piece + ps[n].value == Endpoint + "?" + QueryString(ps[..n + 1])
  {
    assert ps[..n + 1][..n] == ps[..n];
  }

  lemma FirstTwoParams(serviceKey: Option<string>, searchYearCd: int)
    ensures Endpoint + "?serviceKey=" + KeyText(serviceKey) + "&searchYearCd=" + Decimal(searchYearCd)
         == Endpoint + "?" + QueryString(QueryParams(serviceKey, searchYearCd)[..2])
  {
    var ps := QueryParams(serviceKey, searchYearCd);
    var k := KeyText(serviceKey);
    assert QueryString(ps[..1]) == "serviceKey" + "=" + k by {
      assert ps[..1] == [Param("serviceKey", k)];
    }
    assert "?" + ("serviceKey" + "=") == "?serviceKey=";
    ConcatAssoc(Endpoint, "?", "serviceKey" + "=" + k);
    ConcatAssoc("?", "serviceKey" + "=", k);
    ConcatAssoc(Endpoint, "?" + ("serviceKey" + "="), k);
    var u1 := Endpoint + "?serviceKey=" + k;
    assert "&" + "searchYearCd" + "=" == "&searchYearCd=";
    AppendParam(ps, 1, u1, "&searchYearCd=");
  }

  lemma MiddleParams(serviceKey: Option<string>, searchYearCd: int, u2: string)
    requires u2 == Endpoint + "?" + QueryString(QueryParams(serviceKey, searchYearCd)[..2])
    ensures u2 + "&siDo=" + Decimal(SiDo) + "&guGun=" + Decimal(GuGun) + "&type=" + ResultType
         == Endpoint + "?" + QueryString(QueryParams(serviceKey, searchYearCd)[..5])
  {
    var ps := QueryParams(serviceKey, searchYearCd);
    var u3 := u2 + "&siDo=" + Decimal(SiDo);
    assert "&" + "siDo" + "=" == "&siDo=";
    AppendParam(ps, 2, u2, "&siDo=");
    var u4 := u3 + "&guGun=" + Decimal(GuGun);
    assert "&" + "guGun" + "=" == "&guGun=";
    AppendParam(ps, 3, u3, "&guGun=");
    assert "&" + "type" + "=" == "&type=";
    AppendParam(ps, 4, u4, "&type=");
  }

  lemma LastParams(serviceKey: Option<string>, searchYearCd: int, u5: string)
    requires u5 == Endpoint + "?" + QueryString(QueryParams(serviceKey, searchYearCd)[..5])
    ensures u5 + "&numOfRows=" + Decimal(NumOfRows) + "&pageNo=" + Decimal(PageNo)
         == Endpoint + "?" + QueryString(QueryParams(serviceKey, searchYearCd))
  {
    var ps := QueryParams(serviceKey, searchYearCd);
    var u6 := u5 + "&numOfRows=" + Decimal(NumOfRows);
    assert "&" + "numOfRows" + "=" == "&numOfRows=";
    AppendParam(ps, 5, u5, "&numOfRows=");
    assert "&" + "pageNo" + "=" == "&pageNo=";
    AppendParam(ps, 6, u6, "&pageNo=");
    assert ps[..7] == ps;
  }

  /**
   * Only the service key and the year vary between requests: the parameter
   * names never change, and neither do the values after the second.
   */
  lemma OnlyKeyAndYearVary(k1: Option<string>, y1: int, k2: Option<string>, y2: int)
    ensures forall i :: 0 <= i < 7 ==> QueryParams(k1, y1)[i].name == QueryParams(k2, y2)[i].name
    ensures QueryParams(k1, y1)[2..] == QueryParams(k2, y2)[2..]
    ensures QueryParams(k1, y1)[1].value == Decimal(y1)
    ensures QueryParams(k1, y1)[0].value == KeyText(k1)
  {
  }

  /** The constant parameters as they appear in the URL. */
  lemma ConstantParameterText()
    ensures Decimal(SiDo) == "28" && Decimal(GuGun) == "237"
    ensures Decimal(NumOfRows) == "10" && Decimal(PageNo) == "1"
  {
    assert Digits(23) == "23";
  }

  lemma CancelAffixes(a: string, x: string, y: string, b: string)
    requires a + x + b == a + y + b
    ensures x == y
  {
    assert |x| == |y|;
    assert x == (a + x + b)[|a|..|a| + |x|];
    assert y == (a + y + b)[|a|..|a| + |y|];
  }

  /** Everything in the URL before the year. */
  function UrlPrefix(serviceKey: Option<string>): string {
    Endpoint + "?serviceKey=" + KeyText(serviceKey) + "&searchYearCd="
  }

  /** Everything in the URL after the year; it is the same for every request. */
  function UrlSuffix(): string {
    "&siDo=" + Decimal(SiDo) + "&guGun=" + Decimal(GuGun) + "&type=" + ResultType
      + "&numOfRows=" + Decimal(NumOfRows) + "&pageNo=" + Decimal(PageNo)
  }

  /** With a fixed key, the URL determines the year it asks for. */
  lemma RequestUrlDeterminesYear(serviceKey: Option<string>, y1: int, y2: int)
    ensures RequestUrl(serviceKey, y1) == RequestUrl(serviceKey, y2) <==> y1 == y2
  {
    if RequestUrl(serviceKey, y1) == RequestUrl(serviceKey, y2) {
      CancelAffixes(UrlPrefix(serviceKey), Decimal(y1), Decimal(y2), UrlSuffix());
      DecimalInjective(y1, y2);
    }
  }

  // ---------------------------------------------------------------------
  // The outcome of the request.
  // ---------------------------------------------------------------------

  /** Why the returned promise rejects. */
  datatype FetchError =
    | NetworkFailure            // `fetch` itself rejects
    | NotOk(status: int)        // `throw res` for a response whose `ok` is false
    | MalformedBody             // `res.json()` rejects

  /** An HTTP response: its status and what `res.json()` would yield (None: it rejects). */
  datatype Response = Response(status: int, body: Option<AccidentReport>) {
    /** `Response.ok`: the status is in the range 200-299. */
    predicate Ok() {
      200 <= status <= 299
    }
  }

  /** What the network delivers for one request. */
  datatype Transport = Unreachable | Received(response: Response)

  /** How the promise returned by `fetchData` settles. */
  function FetchOutcome(t: Transport): (r: Result<AccidentReport, FetchError>)
    ensures r.Success? <==> t.Received? && t.response.Ok() && t.response.body.Some?
    ensures r.Success? ==> r.value == t.response.body.value
    ensures t.Unreachable? ==> r == Failure(NetworkFailure)
    ensures t.Received? && !t.response.Ok() ==> r == Failure(NotOk(t.response.status))
  {
    match t
    case Unreachable => Failure(NetworkFailure)
    case Received(res) =>
      if !res.Ok() then Failure(NotOk(res.status))
      else match res.body
        case Some(report) => Success(report)
        case None => Failure(MalformedBody)
  }

  /** A response that is not ok fails whatever its body is: the body is never read. */
  lemma NotOkBodyIgnored(status: int, b1: Option<AccidentReport>, b2: Option<AccidentReport>)
    requires !(200 <= status <= 299)
    ensures FetchOutcome(Received(Response(status, b1))).Failure?
    ensures FetchOutcome(Received(Response(status, b1))) == FetchOutcome(Received(Response(status, b2)))
  {
  }
}
