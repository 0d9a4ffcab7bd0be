/**
  The pure side of `_login`: its outcomes, the redirect chase after the
  password form (bounded by `maxDepth = 10`), and the parsing done between
  requests (the discovery document, the two sign-in forms, the fragment of
  the final redirect).
 */
module LoginFlow {
  import opened Values
  import opened Text
  import opened Http
  import opened Externals

  const DiscoveryUrl := "https://identity.vwgroup.io/.well-known/openid-configuration"
  const ExchangeUrl := "https://tokenrefreshservice.apps.emea.vwapps.io/exchangeAuthCode"
  const Scope := "openid profile address cars email birthdate badge mbb phone driversLicense dealers"
  /** The number of redirects followed before giving up. */
  const MaxDepth := 10

  /** The steps whose reply status is checked. */
  datatype Stage = Discovery | Authorize | Email | CodeExchange | SecondaryExchange

  /** How a login ends: a rejected status at some stage (Python returns `""`),
      the redirect limit reached (`False`), an exception (`False`, flag cleared),
      or success (`True`). */
  datatype LoginResult = Aborted(stage: Stage) | GaveUp | Failed(error: Exc) | LoggedIn

  /** The value `_login` returns for each outcome. */
  function Returned(r: LoginResult): (v: Json)
    ensures Truthy(v) <==> r.LoggedIn?
    ensures r.Aborted? <==> v == JStr("")
  {
    match r
    case Aborted(_) => JStr("")
    case GaveUp => JBool(false)
    case Failed(_) => JBool(false)
    case LoggedIn => JBool(true)
  }

  /** A step of the login hands a value on to the next one, or ends the login. */
  datatype Step<T> = Continue(value: T) | Stop(result: LoginResult)

  /** The end a reply forces at a stage whose status is checked: a transport
      failure raises; the second token exchange accepts anything up to 400,
      every other stage wants a 200. */
  function Rejected(x: Exchange, stage: Stage): (stop: Option<LoginResult>)
    ensures stop.Some? ==> stop.value == Failed(TransportError) || stop.value == Aborted(stage)
    ensures stop == Some(Failed(TransportError)) <==> x.Dropped?
    ensures stop == Some(Aborted(stage)) <==>
      x.Answered? && (if stage == SecondaryExchange then x.response.status > 400 else x.response.status != 200)
  {
    if x.Dropped? then Some(Failed(TransportError))
    else if stage == SecondaryExchange && x.response.status > 400 then Some(Aborted(stage))
    else if stage != SecondaryExchange && x.response.status != 200 then Some(Aborted(stage))
    else None
  }

  /** The discovery reply: a 200 whose document names the authorization endpoint and the issuer. */
  function DiscoveryStep(x: Exchange): (s: Step<(string, Json)>)
    ensures s == Stop(Aborted(Discovery)) <==> x.Answered? && x.response.status != 200
    ensures s.Stop? ==> s.result == Aborted(Discovery) || s.result.Failed?
    ensures s.Continue? ==> HasStatus(x, 200) && Endpoints(x.response) == Ok(s.value)
  {
    match Rejected(x, Discovery)
    case Some(stop) => Stop(stop)
    case None =>
      match Endpoints(x.response)
      case Raised(e) => Stop(Failed(e))
      case Ok(v) => Continue(v)
  }

  /** A 200 page carrying a sign-in form: the form's fields with one of them
      filled in, and the URL they are posted to. */
  function FormStep(x: Exchange, stage: Stage, formId: string, field: string, value: string, issuer: Json)
    : (s: Step<(map<string, string>, string)>)
    requires stage == Authorize || stage == Email
    ensures s == Stop(Aborted(stage)) <==> x.Answered? && x.response.status != 200
    ensures s.Stop? ==> s.result == Aborted(stage) || s.result.Failed?
    ensures s.Continue? ==> HasStatus(x, 200) && issuer.JStr? && FormPost(x.response, formId, field, value, issuer) == Ok(s.value)
  {
    match Rejected(x, stage)
    case Some(stop) => Stop(stop)
    case None =>
      match FormPost(x.response, formId, field, value, issuer)
      case Raised(e) => Stop(Failed(e))
      case Ok(v) => Continue(v)
  }

  /** The reply to the password form, whose status is not checked: its
      `Location` starts the redirect chase; without one, `ref` is never bound
      and the login fails with a NameError. */
  function PasswordStep(x: Exchange): (s: Step<string>)
    ensures s.Continue? <==> Location(x).Some?
    ensures s.Continue? ==> s.value == Location(x).value
    ensures s.Stop? ==> s.result == Failed(if x.Dropped? then TransportError else NameError)
  {
    if x.Dropped? then Stop(Failed(TransportError))
    else
      match Location(x)
      case None => Stop(Failed(NameError))
      case Some(ref) => Continue(ref)
  }

  /** The JSON of a token exchange's reply once it is past the status check;
      it is stored as the authority's tokens whatever it holds. */
  function TokenReply(x: Exchange, stage: Stage): (j: Option<Json>)
    ensures j.Some? <==> Rejected(x, stage).None? && x.Answered? && x.response.body.JsonBody?
    ensures j.Some? ==> j.value == x.response.body.json
  {
    if Rejected(x, stage).Some? then None
    else
      match JsonOf(x.response)
      case Raised(_) => None
      case Ok(j) => Some(j)
  }

  /** A token exchange: the stored reply must hold the token `field` names. */
  function TokenStep(x: Exchange, stage: Stage, field: string): (s: Step<Json>)
    ensures s == Stop(Aborted(stage)) <==> Rejected(x, stage) == Some(Aborted(stage))
    ensures s.Stop? ==> s.result == Aborted(stage) || s.result.Failed?
    ensures s.Continue? <==> TokenReply(x, stage).Some? && Index(TokenReply(x, stage).value, field).Ok?
    ensures s.Continue? ==> s.value == TokenReply(x, stage).value.fields[field]
  {
    match Rejected(x, stage)
    case Some(stop) => Stop(stop)
    case None =>
      match JsonOf(x.response)
      case Raised(e) => Stop(Failed(e))
      case Ok(j) =>
        match Index(j, field)
        case Raised(e) => Stop(Failed(e))
        case Ok(token) => Continue(token)
  }

  // ---------------------------------------------------------------------
  // Redirect chase

  /** How the redirect chase ends: at a `ref` after `hops` GETs (the app's URI
      was reached, or a GET failed or had no `Location`), or out of depth. */
  datatype Redirects = Stopped(ref: string, hops: nat) | Exhausted

  function Shift(f: Redirects, k: nat): Redirects
  {
    match f
    case Exhausted => Exhausted
    case Stopped(ref, n) => Stopped(ref, n + k)
  }

  /** The number of GETs the chase issues. */
  function Hops(f: Redirects, depth: nat): nat
  {
    if f.Exhausted? then depth else f.hops
  }

  /** The chase from `ref` with `depth` GETs left, against the pending replies. */
  function Follow(ref: string, replies: Replies, appUri: string, depth: nat): Redirects
    requires depth >= 1
    decreases depth
  {
    if StartsWith(ref, appUri) then Stopped(ref, 0)
    else
      match Location(Next(replies))
      case None => Stopped(ref, 1)
      case Some(loc) =>
        if depth == 1 then Exhausted
        else Shift(Follow(loc, Rest(replies), appUri, depth - 1), 1)
  }

  /** The first step of a chase: it ends at once at the app's URI, after one
      GET answered without `Location`, or after the last GET it may issue;
      otherwise the rest of the chase starts at that `Location`, one GET later. */
  lemma FollowFirst(ref: string, replies: Replies, appUri: string, depth: nat)
    requires depth >= 1
    ensures StartsWith(ref, appUri) ==> Follow(ref, replies, appUri, depth) == Stopped(ref, 0)
    ensures !StartsWith(ref, appUri) && Location(Next(replies)).None? ==> Follow(ref, replies, appUri, depth) == Stopped(ref, 1)
    ensures !StartsWith(ref, appUri) && Location(Next(replies)).Some? && depth == 1 ==> Follow(ref, replies, appUri, depth) == Exhausted
    ensures !StartsWith(ref, appUri) && Location(Next(replies)).Some? && depth >= 2 ==>
              Follow(ref, replies, appUri, depth) == Shift(Follow(Location(Next(replies)).value, Rest(replies), appUri, depth - 1), 1)
  {
  }

  /** The `Location` of the reply to the GET issued `i` requests from now. */
  function LocationAt(replies: Replies, i: nat): Option<string>
  {
    Location(Next(Skip(replies, i)))
  }

  /** The chase issues at most `depth` GETs, and it only ends at the app's URI
      after fewer than `depth` of them. */
  lemma {:induction false} FollowBounded(ref: string, replies: Replies, appUri: string, depth: nat)
    requires depth >= 1
    ensures var f := Follow(ref, replies, appUri, depth);
      f.Stopped? ==> f.hops <= depth && (StartsWith(f.ref, appUri) ==> f.hops < depth)
    decreases depth
  {
    if !StartsWith(ref, appUri) && Location(Next(replies)).Some? && depth > 1 {
      FollowBounded(Location(Next(replies)).value, Rest(replies), appUri, depth - 1);
    }
  }

  /** The chase runs out of depth exactly when the start is not the app's URI,
      every one of the `depth` GETs answers with a `Location`, and none of the
      first `depth - 1` of them points at the app: the last one is not looked at. */
  lemma {:induction false} FollowExhausted(ref: string, replies: Replies, appUri: string, depth: nat)
    requires depth >= 1
    ensures Follow(ref, replies, appUri, depth).Exhausted? <==>
      && !StartsWith(ref, appUri)
      && (forall i :: 0 <= i < depth ==> LocationAt(replies, i).Some?)
      && (forall i :: 0 <= i < depth - 1 ==> LocationAt(replies, i).Some? && !StartsWith(LocationAt(replies, i).value, appUri))
    decreases depth
  {
    assert LocationAt(replies, 0) == Location(Next(replies));
    if !StartsWith(ref, appUri) && Location(Next(replies)).Some? && depth > 1 {
      var loc := Location(Next(replies)).value;
      FollowExhausted(loc, Rest(replies), appUri, depth - 1);
      var rest := Follow(loc, Rest(replies), appUri, depth - 1);
      assert Follow(ref, replies, appUri, depth).Exhausted? <==> rest.Exhausted?;
      if rest.Exhausted? {
        forall i | 0 <= i < depth
          ensures LocationAt(replies, i).Some?
        {
          if i > 0 {
            assert LocationAt(replies, i) == LocationAt(Rest(replies), i - 1);
          }
        }
        forall i | 0 <= i < depth - 1
          ensures LocationAt(replies, i).Some? && !StartsWith(LocationAt(replies, i).value, appUri)
        {
          if i > 0 {
            assert LocationAt(replies, i) == LocationAt(Rest(replies), i - 1);
          }
        }
      } else {
        // one of the conditions fails for the rest of the chase, hence for the whole of it
        if StartsWith(loc, appUri) {
          assert !(LocationAt(replies, 0).Some? && !StartsWith(LocationAt(replies, 0).value, appUri));
        } else if exists i :: 0 <= i < depth - 1 && LocationAt(Rest(replies), i).None? {
          var i :| 0 <= i < depth - 1 && LocationAt(Rest(replies), i).None?;
          assert LocationAt(replies, i + 1).None?;
        } else {
          var i :| 0 <= i < depth - 2 && !(LocationAt(Rest(replies), i).Some? && !StartsWith(LocationAt(Rest(replies), i).value, appUri));
          assert LocationAt(replies, i + 1) == LocationAt(Rest(replies), i);
        }
      }
    }
  }

  // ---------------------------------------------------------------------
  // Parsing between requests

  /** The discovery document's authorization endpoint (which must be a string
      to be requested) and its issuer (checked only where it is used). */
  function Endpoints(resp: Response): (r: Result<(string, Json)>)
    ensures r.Ok? <==> resp.body.JsonBody? && resp.body.json.JObj?
                       && "authorization_endpoint" in resp.body.json.fields && "issuer" in resp.body.json.fields
                       && resp.body.json.fields["authorization_endpoint"].JStr?
    ensures r.Ok? ==> r.value == (resp.body.json.fields["authorization_endpoint"].s, resp.body.json.fields["issuer"])
  {
    match JsonOf(resp)
    case Raised(e) => Raised(e)
    case Ok(doc) =>
      match Index(doc, "authorization_endpoint")
      case Raised(e) => Raised(e)
      case Ok(endpoint) =>
        match Index(doc, "issuer")
        case Raised(e) => Raised(e)
        case Ok(issuer) => if endpoint.JStr? then Ok((endpoint.s, issuer)) else Raised(TypeError)
  }

  /** A sign-in form's hidden inputs with one field filled in, and the URL it
      is posted to: the issuer followed by the form's `action`. */
  function FormPost(resp: Response, formId: string, field: string, value: string, issuer: Json): (r: Result<(map<string, string>, string)>)
    ensures r.Ok? <==> FormOf(resp, formId).Some? && FormOf(resp, formId).value.action.Some? && issuer.JStr?
    ensures r.Ok? ==> var form := FormOf(resp, formId).value;
      && r.value.0.Keys == form.hidden.Keys + {field}
      && r.value.0[field] == value
      && (forall k :: k in form.hidden && k != field ==> r.value.0[k] == form.hidden[k])
      && r.value.1 == issuer.s + form.action.value
  {
    match FormOf(resp, formId)
    case None => Raised(AttributeError)
    case Some(form) =>
      if form.action.None? || !issuer.JStr? then Raised(TypeError)
      else Ok((form.hidden[field := value], issuer.s + form.action.value))
  }

  /** The authorization code and id token in the fragment of the final
      redirect; the access token must be there too, though it is not used. */
  function Fragment(ref: string, parse: FragmentParser): (r: Result<(string, string)>)
    ensures r.Ok? <==> parse(ref, "code").Some? && parse(ref, "access_token").Some?
                       && parse(ref, "id_token").Some?
    ensures r.Ok? ==> r.value == (parse(ref, "code").value, parse(ref, "id_token").value)
  {
    match parse(ref, "code")
    case None => Raised(TypeError)
    case Some(code) =>
      match parse(ref, "access_token")
      case None => Raised(TypeError)
      case Some(_) =>
        match parse(ref, "id_token")
        case None => Raised(TypeError)
        case Some(idToken) => Ok((code, idToken))
  }

  /** A form's fields as posted data. */
  function FormData(fields: map<string, string>): map<string, Json>
  {
    StrObj(fields).fields
  }

  /** The headers of the second token exchange. */
  function AppHeaders(cfg: Config): map<string, string>
  {
    map["User-Agent" := cfg.userAgent, "X-App-Version" := cfg.appVersion,
        "X-App-Name" := cfg.appName, "X-Client-Id" := cfg.xClientId]
  }
}
