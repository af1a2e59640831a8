/**
 The single delivery request made at completion: where it goes, with which
 headers, carrying which body. The HTTP call itself is abstract: its outcome
 is either success or an error.
 */
module Transmitter {
  import opened JsValues
  import opened Shapes
  import opened SummaryBuilder

  /** The collection endpoint used when no `apiUrl` option is given. */
  const DefaultApiUrl := "https://app.cipulse.dev/api/test-reports"

  const JsonContentType := "application/json"
  const BearerPrefix := "Bearer "

  datatype Headers = Headers(contentType: string, authorization: string)

  /** One POST of a JSON-encoded summary. */
  datatype Request = Post(url: string, body: RunSummary, headers: Headers)

  /** What the HTTP call reports back: a response, or a thrown error. */
  datatype Outcome = Ok | Err(error: string)

  /** `options.apiUrl || DefaultApiUrl`. */
  function TargetUrl(options: Options): (url: string)
    ensures Truthy(options.apiUrl) ==> url == options.apiUrl.value
    ensures !Truthy(options.apiUrl) ==> url == DefaultApiUrl
    ensures url != ""
  {
    OrElse(options.apiUrl, DefaultApiUrl)
  }

  /** How a template literal renders a `string | undefined`. */
  function Interpolate(v: JsString): string {
    match v
    case Some(s) => s
    case None => "undefined"
  }

  /** The value of the Authorization header: the bearer prefix followed by the key. */
  function Authorization(apiKey: JsString): (h: string)
    ensures |h| >= |BearerPrefix| && h[..|BearerPrefix|] == BearerPrefix
    ensures apiKey.Some? ==> h[|BearerPrefix|..] == apiKey.value
  {
    BearerPrefix + Interpolate(apiKey)
  }

  /** The request sent for `summary` under `options`. */
  function BuildRequest(options: Options, summary: RunSummary): (req: Request)
    ensures req.url == TargetUrl(options)
    ensures req.body == summary
    ensures req.headers.contentType == JsonContentType
    ensures req.headers.authorization == Authorization(options.apiKey)
  {
    Post(TargetUrl(options), summary, Headers(JsonContentType, Authorization(options.apiKey)))
  }

  /** The Authorization header determines the key it was built from. */
  lemma {:induction false} AuthorizationInjective(k1: string, k2: string)
    ensures Authorization(Some(k1)) == Authorization(Some(k2)) <==> k1 == k2
  {
    if Authorization(Some(k1)) == Authorization(Some(k2)) {
      assert k1 == Authorization(Some(k1))[|BearerPrefix|..];
    }
  }
}
