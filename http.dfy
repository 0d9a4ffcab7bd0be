/**
  The HTTP client the connection talks through (an aiohttp ClientSession),
  replaced by an oracle: the replies the remote services give arrive in
  order from `pending`, and every request sent is recorded in `log` together
  with the session cookies it carried and the reply it received.
 */
module Http {
  import opened Values

  datatype Method = GET | POST

  /** An HTML form as an HTML parser sees it: its hidden inputs and its `action`. */
  datatype Form = Form(hidden: map<string, string>, action: Option<string>)

  /** A response body: JSON, an HTML page (its forms by `id`), or anything else. */
  datatype Body = JsonBody(json: Json) | HtmlBody(forms: map<string, Form>) | OtherBody

  datatype Response = Response(
    status: int,
    headers: map<string, string>,
    cookies: map<string, string>,
    body: Body)

  /** What a request brings back: a response, or a transport failure (connection error, timeout). */
  datatype Exchange = Answered(response: Response) | Dropped

  /** A request as the client hands it over; `headers` and `cookies` are the ones
      passed explicitly (the session adds its own defaults and its jar). */
  datatype HttpRequest = HttpRequest(
    verb: Method,
    url: string,
    params: map<string, string>,
    headers: map<string, string>,
    data: map<string, Json>,
    cookies: map<string, string>,
    follow: bool)   // whether the client follows redirects itself

  /** One line of the transcript: a request, the session's cookies when it left, and its reply. */
  datatype Sent = Sent(request: HttpRequest, jar: map<string, string>, reply: Exchange)

  /** The replies the services give, in the order they give them. */
  datatype Script = Script(replies: seq<Exchange>)

  /** The script of replies and how many of them requests have already taken. */
  datatype Replies = Replies(script: Script, served: nat)

  /** The next reply the services give; once the script is spent the network is
      silent and the request fails. */
  function Next(pending: Replies): Exchange
  {
    if pending.served < |pending.script.replies| then pending.script.replies[pending.served] else Dropped
  }

  function Rest(pending: Replies): Replies
  {
    Replies(pending.script, pending.served + 1)
  }

  /** The replies still pending after `n` more requests. */
  function Skip(pending: Replies, n: nat): Replies
  {
    Replies(pending.script, pending.served + n)
  }

  /** The session's cookies once a reply has come in. */
  function Absorb(jar: map<string, string>, x: Exchange): map<string, string>
  {
    if x.Answered? then jar + x.response.cookies else jar
  }

  /** The `Location` header of a reply, if the reply arrived and carries one. */
  function Location(x: Exchange): (loc: Option<string>)
    ensures loc.Some? <==> x.Answered? && "Location" in x.response.headers
  {
    if x.Answered? && "Location" in x.response.headers then Some(x.response.headers["Location"]) else None
  }

  /** aiohttp's `response.json()`. */
  function JsonOf(r: Response): (j: Result<Json>)
    ensures j.Ok? <==> r.body.JsonBody?
  {
    match r.body
    case JsonBody(j) => Ok(j)
    case _ => Raised(ContentError)
  }

  /** BeautifulSoup's `find('form', id=...)` on the response text. */
  function FormOf(r: Response, id: string): (f: Option<Form>)
    ensures f.Some? <==> r.body.HtmlBody? && id in r.body.forms
  {
    match r.body
    case HtmlBody(forms) => if id in forms then Some(forms[id]) else None
    case _ => None
  }

  /** True when the exchange is a response with the given status. */
  predicate HasStatus(x: Exchange, status: int)
  {
    x.Answered? && x.response.status == status
  }

  class Session {
    var jar: map<string, string>
    var pending: Replies
    var log: seq<Sent>

    constructor (replies: seq<Exchange>)
      ensures jar == map[] && pending == Replies(Script(replies), 0) && log == []
    {
      jar := map[];
      pending := Replies(Script(replies), 0);
      log := [];
    }

    /** Empty the session's cookie jar. */
    method ClearCookies()
      modifies this
      ensures jar == map[] && pending == old(pending) && log == old(log)
    {
      jar := map[];
    }

    /** Send one request and receive its reply; the session keeps the reply's cookies. */
    method Send(request: HttpRequest) returns (x: Exchange)
      modifies this
      ensures x == Next(old(pending)) && pending == Rest(old(pending))
      ensures log == old(log) + [Sent(request, old(jar), x)]
      ensures jar == Absorb(old(jar), x)
    {
      x := Next(pending);
      pending := Rest(pending);
      log := log + [Sent(request, jar, x)];
      if x.Answered? {
        jar := jar + x.response.cookies;
      }
    }
  }
}
