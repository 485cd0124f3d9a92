/**
 The request/response operations of the client (`listPrices`, `getPrice`,
 `convertPrice` in src/index.ts), reduced to the axios call each one makes:
 the verb, the target URL, the `data` argument and the headers of the config
 argument. Sending the request and decoding the response are not modelled.
 */
module Rest {

  import opened Wrappers

  datatype Verb = Get | Post

  datatype Headers = Headers(authorization: string)

  /** `NewConversionParams`; `value` is a JavaScript number. */
  datatype NewConversionParams = NewConversionParams(base: string, value: real, quote: string)

  /** The `data` argument of an axios call. */
  datatype Body =
    | NoBody                              // axios.get has no data argument
    | HeadersObject(headers: Headers)     // the literal `{ headers: { Authorization: … } }`
    | ConversionParams(params: NewConversionParams)

  datatype Request = Request(verb: Verb, url: string, data: Body, configHeaders: Option<Headers>)

  const PricesPath: string := "/api/prices"
  /** The placeholders `getPrice` appends to the prices path, never substituted. */
  const PairPlaceholders: string := "/{base}/{quote}/{source}"
  const ConversionsPath: string := "/api/conversions"

  /** A template-literal substitution `${v}`: an absent value prints as `undefined`. */
  function Interpolate(v: Option<string>): (r: string)
    ensures v.Some? ==> r == v.value
    ensures r == "undefined" <==> v.None? || v == Some("undefined")
  {
    match v
    case Some(s) => s
    case None => "undefined"
  }

  /** The header value `Bearer ${this.token}`. */
  function Authorization(token: Option<string>): (r: string)
    ensures |r| >= 7 && r[..7] == "Bearer "
    ensures token.None? ==> r == "Bearer undefined"
    ensures token.Some? ==> r[7..] == token.value
  {
    "Bearer " + Interpolate(token)
  }

  /** `listPrices`: GET the prices collection, authorised through the config headers. */
  function ListPrices(httpApiUrl: string, token: Option<string>): (r: Request)
    ensures r.verb == Get && r.data == NoBody
    ensures |r.url| > |httpApiUrl| && r.url[..|httpApiUrl|] == httpApiUrl
    ensures r.configHeaders == Some(Headers(Authorization(token)))
  {
    Request(Get, httpApiUrl + PricesPath, NoBody, Some(Headers(Authorization(token))))
  }

  /**
   `getPrice` as written: the path is a plain string, so `{base}`, `{quote}` and
   `{source}` stay in it literally and the arguments play no part.
   */
  function GetPrice(httpApiUrl: string, token: Option<string>, base: string, quote: string, source: Option<string>): (r: Request)
    ensures r == ListPrices(httpApiUrl, token).(url := ListPrices(httpApiUrl, token).url + PairPlaceholders)
  {
    Request(Get, httpApiUrl + PricesPath + PairPlaceholders, NoBody, Some(Headers(Authorization(token))))
  }

  /**
   `convertPrice` as written: the headers object goes in axios's `data`
   position, so it is posted as the body, no config (hence no Authorization
   header) is passed, and `params` is never used.
   */
  function ConvertPrice(httpApiUrl: string, token: Option<string>, params: NewConversionParams): (r: Request)
    ensures r.verb == Post && r.configHeaders == None
    ensures r.data == HeadersObject(Headers(Authorization(token)))
    ensures |r.url| > |httpApiUrl| && r.url[..|httpApiUrl|] == httpApiUrl
  {
    Request(Post, httpApiUrl + ConversionsPath, HeadersObject(Headers(Authorization(token))), None)
  }

  /** The targets and headers of the three operations. */
  lemma RequestTargets(httpApiUrl: string, token: Option<string>, base: string, quote: string,
                       source: Option<string>, params: NewConversionParams)
    ensures ListPrices(httpApiUrl, token) ==
              Request(Get, httpApiUrl + "/api/prices", NoBody, Some(Headers("Bearer " + Interpolate(token))))
    ensures GetPrice(httpApiUrl, token, base, quote, source) ==
              Request(Get, httpApiUrl + "/api/prices/{base}/{quote}/{source}", NoBody, Some(Headers("Bearer " + Interpolate(token))))
    ensures ConvertPrice(httpApiUrl, token, params) ==
              Request(Post, httpApiUrl + "/api/conversions", HeadersObject(Headers("Bearer " + Interpolate(token))), None)
  {
    assert PricesPath + PairPlaceholders == "/api/prices/{base}/{quote}/{source}";
    assert httpApiUrl + PricesPath + PairPlaceholders == httpApiUrl + (PricesPath + PairPlaceholders);
  }

  /** Every GET targets a path under the HTTP base URL and carries the Authorization header. */
  lemma GetsAreAuthorisedUnderBase(httpApiUrl: string, token: Option<string>, base: string, quote: string, source: Option<string>)
    ensures var l := ListPrices(httpApiUrl, token);
            l.url[..|httpApiUrl|] == httpApiUrl && l.configHeaders == Some(Headers(Authorization(token)))
    ensures var g := GetPrice(httpApiUrl, token, base, quote, source);
            g.url[..|httpApiUrl|] == httpApiUrl && g.configHeaders == Some(Headers(Authorization(token)))
  {
  }

  /** As written, two different currency pairs hit one and the same endpoint. */
  lemma GetPriceIgnoresPair(httpApiUrl: string, token: Option<string>)
    ensures GetPrice(httpApiUrl, token, "USD", "BTC", None) == GetPrice(httpApiUrl, token, "EUR", "ETH", Some("x"))
    ensures GetPrice(httpApiUrl, token, "USD", "BTC", None).url == httpApiUrl + "/api/prices/{base}/{quote}/{source}"
  {
  }

  /** As written, what is posted does not depend on the conversion asked for, and no Authorization header is sent. */
  lemma ConvertPriceDropsParams(httpApiUrl: string, token: Option<string>)
    ensures ConvertPrice(httpApiUrl, token, NewConversionParams("USD", 1000.0, "BTC")) ==
              ConvertPrice(httpApiUrl, token, NewConversionParams("EUR", 5.0, "ETH"))
    ensures ConvertPrice(httpApiUrl, token, NewConversionParams("USD", 1000.0, "BTC")).configHeaders == None
    ensures !ConvertPrice(httpApiUrl, token, NewConversionParams("USD", 1000.0, "BTC")).data.ConversionParams?
  {
  }

  /** The path segments `{base}/{quote}/{source}` with the arguments substituted. */
  function PairPath(base: string, quote: string, source: Option<string>): string
  {
    base + "/" + quote + "/" + Interpolate(source)
  }

  function PriceByPairUrl(httpApiUrl: string, base: string, quote: string, source: Option<string>): string
  {
    httpApiUrl + "/api/prices/" + PairPath(base, quote, source)
  }

  /** `getPrice` with the placeholders substituted, as `/api/prices/{base}/{quote}/{source}` evidently means. */
  function GetPriceInterpolated(httpApiUrl: string, token: Option<string>, base: string, quote: string, source: Option<string>): (r: Request)
    ensures r == GetPrice(httpApiUrl, token, base, quote, source).(url := PriceByPairUrl(httpApiUrl, base, quote, source))
    ensures r.url[..|httpApiUrl|] == httpApiUrl
  {
    Request(Get, PriceByPairUrl(httpApiUrl, base, quote, source), NoBody, Some(Headers(Authorization(token))))
  }

  /** `convertPrice` with `params` as the posted body and the Authorization header in the config. */
  function ConvertPriceWithBody(httpApiUrl: string, token: Option<string>, params: NewConversionParams): (r: Request)
    ensures r.data == ConversionParams(params)
    ensures r.configHeaders == Some(Headers(Authorization(token)))
    ensures r.url == ConvertPrice(httpApiUrl, token, params).url
  {
    Request(Post, httpApiUrl + ConversionsPath, ConversionParams(params), Some(Headers(Authorization(token))))
  }

  /** A path segment: no `/` inside it. */
  predicate IsSegment(s: string)
  {
    '/' !in s
  }

  /** The length of the first path segment of `s`: the index of its first `/`, or `|s|`. */
  function SegmentEnd(s: string): (r: nat)
    ensures r <= |s|
  {
    if s == [] || s[0] == '/' then 0 else 1 + SegmentEnd(s[1..])
  }

  lemma {:induction false} SegmentEndOf(a: string, x: string)
    requires IsSegment(a)
    ensures SegmentEnd(a + "/" + x) == |a|
  {
    if a != [] {
      assert (a + "/" + x)[1..] == a[1..] + "/" + x;
      SegmentEndOf(a[1..], x);
    }
  }

  /** Two strings split at their first `/` agree when their first segments do not contain one. */
  lemma SplitAtSlash(a: string, x: string, b: string, y: string)
    requires IsSegment(a) && IsSegment(b)
    requires a + "/" + x == b + "/" + y
    ensures a == b && x == y
  {
    var l := a + "/" + x;
    SegmentEndOf(a, x);
    SegmentEndOf(b, y);
    assert a == l[..|a|] && b == (b + "/" + y)[..|b|];
    assert x == l[|a| + 1..] && y == (b + "/" + y)[|b| + 1..];
  }

  /** Regrouping a two-slash path around its first slash. */
  lemma ConcatAssoc(a: string, b: string, c: string)
    ensures a + "/" + b + "/" + c == a + "/" + (b + "/" + c)
  {
    assert a + "/" + b + "/" + c == (a + "/") + (b + "/" + c);
  }

  lemma CancelPrefix(p: string, x: string, y: string)
    requires p + x == p + y
    ensures x == y
  {
    assert x == (p + x)[|p|..];
  }

  /**
   With interpolation, the target names the pair: for segment-shaped
   arguments, equal targets under one base URL mean the same base, quote and
   source (the corrected counterpart of GetPriceIgnoresPair).
   */
  lemma InterpolatedTargetNamesPair(
    httpApiUrl: string, token: Option<string>,
    base1: string, quote1: string, source1: Option<string>,
    base2: string, quote2: string, source2: Option<string>)
    requires IsSegment(base1) && IsSegment(quote1) && IsSegment(base2) && IsSegment(quote2)
    requires GetPriceInterpolated(httpApiUrl, token, base1, quote1, source1).url ==
             GetPriceInterpolated(httpApiUrl, token, base2, quote2, source2).url
    ensures base1 == base2 && quote1 == quote2 && Interpolate(source1) == Interpolate(source2)
  {
    CancelPrefix(httpApiUrl + "/api/prices/", PairPath(base1, quote1, source1), PairPath(base2, quote2, source2));
    PairPathInjective(base1, quote1, source1, base2, quote2, source2);
  }

  lemma PairPathInjective(base1: string, quote1: string, source1: Option<string>,
                          base2: string, quote2: string, source2: Option<string>)
    requires IsSegment(base1) && IsSegment(quote1) && IsSegment(base2) && IsSegment(quote2)
    requires PairPath(base1, quote1, source1) == PairPath(base2, quote2, source2)
    ensures base1 == base2 && quote1 == quote2 && Interpolate(source1) == Interpolate(source2)
  {
    var s1, s2 := Interpolate(source1), Interpolate(source2);
    var r1, r2 := quote1 + "/" + s1, quote2 + "/" + s2;
    ConcatAssoc(base1, quote1, s1);
    ConcatAssoc(base2, quote2, s2);
    SplitAtSlash(base1, r1, base2, r2);
    SplitAtSlash(quote1, s1, quote2, s2);
  }

  /** With the body sent, different conversions post different requests. */
  lemma ConvertPriceWithBodyDistinguishes(httpApiUrl: string, token: Option<string>, p1: NewConversionParams, p2: NewConversionParams)
    requires p1 != p2
    ensures ConvertPriceWithBody(httpApiUrl, token, p1) != ConvertPriceWithBody(httpApiUrl, token, p2)
  {
  }
}
