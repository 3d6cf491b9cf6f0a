/** The status decision of the HTTP service and the message of its failure
    (src/.../Services/IHttpClientService.cs). The request itself is I/O and
    is not modelled: a received response is a parameter. */
module HttpService {
  import opened Wrappers
  import opened Numerals

  /** What `GetAsync` hands back: the numeric status, the reason phrase (may
      be null) and the body text. */
  datatype Response = Response(statusCode: int, reasonPhrase: Option<string>, content: string)

  /** A service holding its client; the client itself is opaque here. */
  datatype HttpClientService<C> = HttpClientService(httpClient: C)

  /** The constructor rejects a null client. */
  function NewHttpClientService<C>(httpClient: Option<C>): (r: Outcome<HttpClientService<C>>)
    ensures r.Failure? <==> httpClient.None?
    ensures r.Failure? ==> r.error == ArgumentNull
    ensures r.Success? ==> r.value.httpClient == httpClient.value
  {
    match httpClient
    case None => Failure(ArgumentNull)
    case Some(c) => Success(HttpClientService(c))
  }

  /** `IsSuccessStatusCode`: a status in the range 200-299. */
  predicate IsSuccessStatusCode(statusCode: int) {
    200 <= statusCode <= 299
  }

  const StatusPrefix: string := "Status Code: "
  const ReasonPrefix: string := " - Reason Phrase: "
  const UrlPrefix: string := " : URL: "

  /** The failure message: the status as its integer value, the reason
      phrase (a null phrase interpolates as nothing) and the url. */
  function GenerateGetException(statusCode: int, reasonPhrase: Option<string>, url: string): (msg: string)
    ensures StatusPrefix <= msg
    ensures EndsWith(msg, url)
  {
    var reason := match reasonPhrase case Some(p) => p case None => "";
    var tail := UrlPrefix + url;
    AppendKeepsEnd(UrlPrefix, url, url);
    AppendKeepsEnd(reason, tail, url);
    AppendKeepsEnd(ReasonPrefix, reason + tail, url);
    AppendKeepsEnd(IntToString(statusCode), ReasonPrefix + (reason + tail), url);
    AppendKeepsEnd(StatusPrefix, IntToString(statusCode) + (ReasonPrefix + (reason + tail)), url);
    StatusPrefix + (IntToString(statusCode) + (ReasonPrefix + (reason + tail)))
  }

  /** `s` ends with `t`. */
  predicate EndsWith(s: string, t: string) {
    |t| <= |s| && s[|s| - |t|..] == t
  }

  lemma AppendKeepsEnd(a: string, b: string, t: string)
    requires b == t || EndsWith(b, t)
    ensures EndsWith(a + b, t)
  {
    assert (a + b)[|a + b| - |b|..] == b;
    if b != t {
      assert (a + b)[|a + b| - |t|..] == b[|b| - |t|..];
    }
  }

  /** `Get`: a success status yields the body unchanged, any other status
      the failure message and never the body. */
  function Get<C>(service: HttpClientService<C>, response: Response, url: string): (r: Result<string, string>)
    ensures r.Success? <==> IsSuccessStatusCode(response.statusCode)
    ensures r.Success? ==> r.value == response.content
    ensures r.Failure? ==> r.error == GenerateGetException(response.statusCode, response.reasonPhrase, url)
  {
    if !IsSuccessStatusCode(response.statusCode) then
      Failure(GenerateGetException(response.statusCode, response.reasonPhrase, url))
    else
      Success(response.content)
  }

  /** Reads the status code back out of a failure message. */
  function StatusCodeOf(msg: string): (code: Option<nat>)
    ensures code.Some? ==> StatusPrefix <= msg
  {
    if |msg| < |StatusPrefix| || msg[..|StatusPrefix|] != StatusPrefix then None
    else
      var digits := LeadingDigits(msg[|StatusPrefix|..]);
      if digits == [] then None else Some(DigitsValue(digits))
  }

  /** The message determines the status code it was built from, whatever
      the reason phrase and url are. */
  lemma {:induction false} StatusCodeRoundTrip(statusCode: nat, reasonPhrase: Option<string>, url: string)
    ensures StatusCodeOf(GenerateGetException(statusCode, reasonPhrase, url)) == Some(statusCode)
  {
    var msg := GenerateGetException(statusCode, reasonPhrase, url);
    var reason := match reasonPhrase case Some(p) => p case None => "";
    var rest := ReasonPrefix + (reason + (UrlPrefix + url));
    assert msg[|StatusPrefix|..] == NatToString(statusCode) + rest;
    NatToStringRoundTrip(statusCode, rest);
    LeadingDigitsOfDigitsThen(NatToString(statusCode), rest);
  }

  /** Step of BadRequestMessage: the status code 400 prints as "400". */
  lemma StatusText400()
    ensures IntToString(400) == "400"
  {
    assert NatToString(4) == "4";
    assert NatToString(40) == "40";
  }

  /** Step of BadRequestMessage: the message parts concatenate to the expected text. */
  lemma BadRequestText()
    ensures StatusPrefix + "400" + ReasonPrefix + "Bad Request" + UrlPrefix + "url"
      == "Status Code: 400 - Reason Phrase: Bad Request : URL: url"
  {
    assert StatusPrefix + "400" == "Status Code: 400";
    assert "Status Code: 400" + ReasonPrefix == "Status Code: 400 - Reason Phrase: ";
    assert "Status Code: 400 - Reason Phrase: " + "Bad Request" == "Status Code: 400 - Reason Phrase: Bad Request";
    assert "Status Code: 400 - Reason Phrase: Bad Request" + UrlPrefix == "Status Code: 400 - Reason Phrase: Bad Request : URL: ";
    assert "Status Code: 400 - Reason Phrase: Bad Request : URL: " + "url" == "Status Code: 400 - Reason Phrase: Bad Request : URL: url";
  }

  /** Step of BadRequestMessage: regrouping the concatenation. */
  lemma Reassociate(a: string, b: string, c: string, d: string, e: string, f: string)
    ensures a + (b + (c + (d + (e + f)))) == a + b + c + d + e + f
  {
  }

  /** A 400 "Bad Request" response for "url" fails with exactly this message. */
  lemma BadRequestMessage()
    ensures Get(HttpClientService(0), Response(400, Some("Bad Request"), "body"), "url")
      == Failure("Status Code: 400 - Reason Phrase: Bad Request : URL: url")
  {
    StatusText400();
    Reassociate(StatusPrefix, "400", ReasonPrefix, "Bad Request", UrlPrefix, "url");
    BadRequestText();
  }
}
