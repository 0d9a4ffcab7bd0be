/**
  What `_request` and `get` make of one reply, as pure functions of the
  exchange: the status check, the 204 / JSON classification, the copy of the
  rate-limit header, the update of the connection's own cookie jar, and the
  error-status result `get` substitutes.
 */
module Requests {
  import opened Values
  import opened Http

  const RateHeader := "X-RateLimit-Remaining"
  const RateKey := "rate_limit_remaining"

  /** `{'status_code': 204}`. */
  function NoContent(): Json
  {
    JObj(map["status_code" := JNum(204)])
  }

  /** `{'status': s}`, what `get` returns for an error status. */
  function StatusOnly(status: int): Json
  {
    JObj(map["status" := JNum(status)])
  }

  /** The body `_request` hands back for a response that passed `raise_for_status`.
      A 204 becomes `{'status_code': 204}`; any other status has its body parsed
      as JSON (the test `status >= 200 or status <= 300` holds for every status);
      the rate-limit header is copied into a dictionary result; a body that is
      not JSON, or a non-dictionary result with the header present, gives `{}`. */
  function ResponseValue(resp: Response): (v: Json)
    ensures resp.status == 204 && RateHeader !in resp.headers ==> v == NoContent()
    ensures resp.status == 204 ==>
              && v.JObj? && "status_code" in v.fields && v.fields["status_code"] == JNum(204)
              && v.fields.Keys == {"status_code"} + (if RateHeader in resp.headers then {RateKey} else {})
    ensures resp.status != 204 && resp.body.JsonBody? && !resp.body.json.JObj? && RateHeader in resp.headers ==>
              v == JObj(map[])
    ensures resp.status != 204 && !resp.body.JsonBody? ==> v == JObj(map[])
    ensures RateHeader in resp.headers && v != JObj(map[]) ==>
              v.JObj? && RateKey in v.fields && v.fields[RateKey] == JStr(resp.headers[RateHeader])
    ensures RateHeader !in resp.headers && resp.status != 204 && resp.body.JsonBody? ==> v == resp.body.json
  {
    var parsed :=
      if resp.status == 204 then Ok(NoContent())
      else if resp.status >= 200 || resp.status <= 300 then JsonOf(resp)
      else Ok(JObj(map[]));
    match parsed
    case Raised(_) => JObj(map[])
    case Ok(res) =>
      if RateHeader !in resp.headers then res
      else if res.JObj? then JObj(res.fields[RateKey := JStr(resp.headers[RateHeader])])
      else JObj(map[])
  }

  /** The third branch of the status test never runs: whatever the status, a
      body other than a 204 is parsed, so its JSON object comes back with the
      rate-limit field added to it. */
  lemma ParsedForEveryStatus(resp: Response)
    requires resp.status != 204 && resp.body.JsonBody? && resp.body.json.JObj?
    ensures ResponseValue(resp).JObj?
    ensures RateHeader in resp.headers ==>
              ResponseValue(resp).fields == resp.body.json.fields[RateKey := JStr(resp.headers[RateHeader])]
    ensures RateHeader !in resp.headers ==> ResponseValue(resp) == resp.body.json
  {
  }

  /** `_request` on one exchange: a transport failure raises, a status of 400 or
      more raises aiohttp's response error, anything else gives a value. */
  function RequestResult(x: Exchange): (r: Result<Json>)
    ensures r.Raised? <==> x.Dropped? || x.response.status >= 400
    ensures x.Dropped? ==> r == Raised(TransportError)
    ensures x.Answered? && x.response.status >= 400 ==> r == Raised(ResponseError(x.response.status))
    ensures r.Ok? ==> r.value == ResponseValue(x.response)
  {
    match x
    case Dropped => Raised(TransportError)
    case Answered(resp) =>
      if resp.status >= 400 then Raised(ResponseError(resp.status)) else Ok(ResponseValue(resp))
  }

  /** The connection's own cookie jar (`_jarCookie`) after an exchange: None is
      the initial empty string. Only a reply that passed the status check is
      taken in; the first one replaces the jar, later ones update it. */
  function JarAfter(jar: Option<map<string, string>>, x: Exchange): (after: Option<map<string, string>>)
    ensures x.Dropped? || x.response.status >= 400 ==> after == jar
    ensures x.Answered? && x.response.status < 400 ==>
              after.Some? && after.value.Keys == (if jar.Some? then jar.value.Keys else {}) + x.response.cookies.Keys
    ensures x.Answered? && x.response.status < 400 ==>
              forall c :: c in x.response.cookies ==> after.value[c] == x.response.cookies[c]
    ensures x.Answered? && x.response.status < 400 && jar.Some? ==>
              forall c :: c in jar.value && c !in x.response.cookies ==> after.value[c] == jar.value[c]
  {
    if x.Answered? && x.response.status < 400 then
      Some(if jar.None? then x.response.cookies else jar.value + x.response.cookies)
    else jar
  }

  /** The `cookies=` argument `_request` passes: nothing while the jar is still empty. */
  function CookieArg(jar: Option<map<string, string>>): map<string, string>
  {
    if jar.Some? then jar.value else map[]
  }

  /** `get`: an error status is caught and reported as `{'status': s}`; only a
      transport failure still raises. */
  function GetResult(x: Exchange): (r: Result<Json>)
    ensures r.Raised? <==> x.Dropped?
    ensures r.Raised? ==> r.error == TransportError
    ensures x.Answered? && x.response.status >= 400 ==> r == Ok(StatusOnly(x.response.status))
    ensures x.Answered? && x.response.status < 400 ==> r == RequestResult(x)
  {
    match RequestResult(x)
    case Raised(ResponseError(s)) => Ok(StatusOnly(s))
    case other => other
  }

  /** The reply that makes `get` clear the logged-in flag. */
  predicate Unauthorized(x: Exchange)
  {
    x.Answered? && x.response.status == 401
  }
}
