/**
  The connection to the Skoda Connect services: the session state it keeps
  (request headers with the bearer token, the token dictionaries, the
  logged-in flag, its own cookie jar, the two base URLs of the vehicle's home
  region, the vehicles) and the operations that change it. Every network
  call goes through the oracle session `net`.
 */
module Connection {
  import opened Values
  import opened Text
  import opened Http
  import opened Externals
  import opened Urls
  import opened Tokens
  import opened Requests
  import opened Fetchers
  import opened LoginFlow
  import opened TokenRefresh
  import opened LoginAttempt
  import Vehicles

  const HomeRegionUrl := "https://mal-1a.prd.ece.vwg-connect.com/api/cs/vds/v1/vehicles/$vin/homeRegion"
  const IdentityKeysUrl := "https://identity.vwgroup.io/oidc/v1/keys"
  const VwgKeysUrl := "https://mbboauth-1d.prd.ece.vwg-connect.com/mbbcoauth/public/jwk/v1"
  const ProfileUrl := "https://customer-profile.apps.emea.vwapps.io/v1/customers/"
  const Authorization := "Authorization"

  /** The GET that fetches an authority's signing keys. */
  function KeyRequest(kind: string): HttpRequest
  {
    HttpRequest(GET, if kind == Identity then IdentityKeysUrl else VwgKeysUrl, map[], map[], map[], map[], true)
  }

  /** `response['homeRegion']['baseUri']['content']`, when it is a string
      (`split` is called on it). */
  function RegionContent(resp: Json): (content: Option<string>)
    ensures content.Some? ==> resp.JObj? && "homeRegion" in resp.fields
  {
    match Index(resp, "homeRegion")
    case Raised(_) => None
    case Ok(region) =>
      match Index(region, "baseUri")
      case Raised(_) => None
      case Ok(base) =>
        match Index(base, "content")
        case Raised(_) => None
        case Ok(c) => if c.JStr? then Some(c.s) else None
  }

  /** An error status reported by `get` never yields a home region. */
  lemma RegionNeedsDocument(status: int)
    ensures RegionContent(StatusOnly(status)).None?
  {
  }

  /** `int(jwt.decode(token, verify=False).get('exp', None))`. */
  function ExpOf(token: Json, jwt: Jwt): (r: Result<int>)
    ensures r.Ok? <==> token.JStr? && jwt.tokenExp(token.s).Some?
  {
    if !token.JStr? then Raised(JwtError)
    else
      match jwt.tokenExp(token.s)
      case None => Raised(JwtError)
      case Some(exp) => Ok(exp)
  }

  /** The two expiries `validate_tokens` compares: the identity id token's and
      the vehicle-API access token's. Both tokens are looked up before either
      is decoded. */
  function Expiries(tokens: map<string, Json>, jwt: Jwt): (r: Result<(int, int)>)
    ensures r.Ok? ==> Field(tokens, Identity, "id_token").Ok? && Field(tokens, Vwg, "access_token").Ok?
    ensures r.Ok? ==> && ExpOf(Field(tokens, Identity, "id_token").value, jwt).Ok?
                      && ExpOf(Field(tokens, Vwg, "access_token").value, jwt).Ok?
                      && r.value == (ExpOf(Field(tokens, Identity, "id_token").value, jwt).value,
                                     ExpOf(Field(tokens, Vwg, "access_token").value, jwt).value)
  {
    match Field(tokens, Identity, "id_token")
    case Raised(e) => Raised(e)
    case Ok(idToken) =>
      match Field(tokens, Vwg, "access_token")
      case Raised(e) => Raised(e)
      case Ok(accessToken) =>
        match ExpOf(idToken, jwt)
        case Raised(e) => Raised(e)
        case Ok(idExp) =>
          match ExpOf(accessToken, jwt)
          case Raised(e) => Raised(e)
          case Ok(atExp) => Ok((idExp, atExp))
  }

  /** A missing token makes the expiry check raise a lookup error rather than
      answer false. */
  lemma MissingTokenRaises(tokens: map<string, Json>, jwt: Jwt)
    requires Identity !in tokens || (Vwg !in tokens && Field(tokens, Identity, "id_token").Ok?)
    ensures Expiries(tokens, jwt) == Raised(LookupError)
  {
  }

  /** The customer id `getRealCarData` puts in the profile URL: the `sub` claim
      of the identity access token. */
  function Subject(tokens: map<string, Json>, jwt: Jwt): (sub: Option<string>)
    ensures sub.Some? ==> Bearer(tokens, Identity).Ok?
  {
    match Field(tokens, Identity, "access_token")
    case Raised(_) => None
    case Ok(token) => if token.JStr? then jwt.tokenSubject(token.s) else None
  }

  /** What the transcript shows of a login attempt that ended in `r`, when
      `before` requests were on record as it started: a rejection is the last
      reply, giving up follows the password with a full chase of plain GETs,
      and a login ends with the Mbb exchange followed by one key fetch. */
  ghost predicate Transcript(r: LoginResult, before: nat, log: seq<Sent>)
  {
    && (r.Aborted? ==>
          |log| > before
          && var last := log[|log| - 1].reply;
             last.Answered? && (if r.stage == SecondaryExchange then last.response.status > 400 else last.response.status != 200))
    && (r.GaveUp? ==>
          |log| == before + 4 + MaxDepth
          && forall i :: |log| - MaxDepth <= i < |log| ==> log[i].request.verb == GET && !log[i].request.follow)
    && (r.LoggedIn? ==>
          |log| >= before + 2
          && var exchange := log[|log| - 2];
             exchange.request.url == MbbTokenUrl && exchange.reply.Answered? && exchange.reply.response.status <= 400)
  }

  /** An attempt that cannot give up reads the same from an earlier starting point. */
  lemma TranscriptFrom(r: LoginResult, before: nat, later: nat, log: seq<Sent>)
    requires before <= later && !r.GaveUp? && Transcript(r, later, log)
    ensures Transcript(r, before, log)
  {
  }

  /** The session cookie jar after one exchange of the refresh that began with
      `jar` and the replies `replies`: the POST's reply cookies, then those of
      the key fetch when it was sent. */
  ghost predicate GrantJar(jar: map<string, string>, replies: Replies, g: Grant, after: map<string, string>)
  {
    var posted := Absorb(jar, Next(replies));
    after == if g.Granted? || g.used == 2 then Absorb(posted, Next(Skip(replies, 1))) else posted
  }

  /** How `_login` opens, when `before` requests were on record: the discovery
      GET goes out with no headers of its own and an empty session cookie jar,
      and when the discovery document is read, the next request carries the
      constant sign-in headers. */
  ghost predicate Opening(log: seq<Sent>, before: nat, discovery: Exchange, authHeaders: map<string, string>)
  {
    && |log| > before
    && log[before] == Sent(HttpRequest(GET, DiscoveryUrl, map[], map[], map[], map[], true), map[], discovery)
    && (DiscoveryStep(discovery).Continue? ==> |log| > before + 1 && log[before + 1].request.headers == authHeaders)
  }

  /** The discovery GET followed by a request that carries the sign-in
      headers whenever the discovery document was read is an opening. */
  lemma OpeningOf(log0: seq<Sent>, discovery: Exchange, authHeaders: map<string, string>, next: seq<Sent>)
    requires DiscoveryStep(discovery).Continue? ==> |next| >= 1 && next[0].request.headers == authHeaders
    ensures Opening(log0 + [Sent(HttpRequest(GET, DiscoveryUrl, map[], map[], map[], map[], true), map[], discovery)] + next,
                    |log0|, discovery, authHeaders)
  {
  }

  /** Requests sent later leave the opening as it was. */
  lemma OpeningKept(log: seq<Sent>, later: seq<Sent>, before: nat, discovery: Exchange, authHeaders: map<string, string>)
    requires Opening(log, before, discovery, authHeaders) && log <= later
    ensures Opening(later, before, discovery, authHeaders)
  {
  }

  /** The requests of a redirect chase, appended to `log0`: each a GET that
      does not follow redirects itself. */
  ghost predicate Chased(log: seq<Sent>, log0: seq<Sent>)
  {
    log0 <= log && forall i :: |log0| <= i < |log| ==> log[i].request.verb == GET && !log[i].request.follow
  }

  /** One more plain GET keeps a chase a chase. */
  lemma ChasedStep(log: seq<Sent>, log0: seq<Sent>, sent: Sent)
    requires Chased(log, log0) && sent.request.verb == GET && !sent.request.follow
    ensures Chased(log + [sent], log0)
  {
  }

  class Connection {
    const net: Session
    const cfg: Config
    const urllib: Urllib
    const jwt: Jwt
    const username: string
    const password: string

    var headers: map<string, string>       // sent with every `_request`
    var authHeaders: map<string, string>   // sent during login
    var tokens: map<string, Json>          // authority -> token dictionary
    var loggedIn: bool
    var jarCookie: Option<map<string, string>>
    var authRefUrl: string                 // base for everything but rights lookups
    var spinRefUrl: string                 // base for rights lookups
    var vehicles: seq<string>

    constructor (net: Session, cfg: Config, urllib: Urllib, jwt: Jwt, username: string, password: string)
      ensures this.net == net && this.cfg == cfg && this.urllib == urllib && this.jwt == jwt
      ensures this.username == username && this.password == password
      ensures headers == cfg.sessionHeaders && authHeaders == cfg.authHeaders
      ensures tokens == map[] && !loggedIn && jarCookie.None?
      ensures authRefUrl == cfg.baseSession && spinRefUrl == cfg.baseSession && vehicles == []
    {
      this.net := net;
      this.cfg := cfg;
      this.urllib := urllib;
      this.jwt := jwt;
      this.username := username;
      this.password := password;
      headers := cfg.sessionHeaders;
      authHeaders := cfg.authHeaders;
      tokens := map[];
      loggedIn := false;
      jarCookie := None;
      authRefUrl := cfg.baseSession;
      spinRefUrl := cfg.baseSession;
      vehicles := [];
    }

    /** `_make_url` against the current base URLs. */
    function Url(ref: string, vin: string): string
      reads this
    {
      MakeUrl(spinRefUrl, authRefUrl, ref, vin, urllib.urljoin)
    }

    /** The request `_request` sends: the session headers and the connection's own cookies. */
    function Outgoing(verb: Method, url: string, data: map<string, Json>): HttpRequest
      reads this
    {
      HttpRequest(verb, url, map[], headers, data, CookieArg(jarCookie), true)
    }

    /** `vehicle(vin)`: the first vehicle whose id matches the VIN in any case. */
    function Vehicle(vin: string): (v: Option<string>)
      reads this
      ensures v.Some? ==> v.value in vehicles && Lower(v.value) == Lower(vin)
      ensures v.Some? ==>
                exists i :: 0 <= i < |vehicles| && vehicles[i] == v.value && Lower(vehicles[i]) == Lower(vin)
                            && forall j :: 0 <= j < i ==> Lower(vehicles[j]) != Lower(vin)
      ensures v.None? ==> forall id :: id in vehicles ==> Lower(id) != Lower(vin)
    {
      match Vehicles.FindVehicle(vehicles, vin)
      case None => None
      case Some(i) => Some(vehicles[i])
    }

    // -------------------------------------------------------------------
    // Token handling

    /** `set_token`: the bearer header for an authority's access token. */
    method SetToken(kind: string) returns (r: Result<string>)
      modifies this`headers
      ensures r == Bearer(tokens, kind)
      ensures headers == if r.Ok? then old(headers)[Authorization := r.value] else old(headers)
    {
      r := Bearer(tokens, kind);
      if r.Ok? {
        headers := headers[Authorization := r.value];
      }
    }

    /** `verify_tokens`: an unknown authority is refused without a request;
        otherwise the key set is fetched (a failure of that fetch raises) and
        the token is checked against it. */
    method VerifyTokens(token: Json, kind: string) returns (r: Result<bool>)
      modifies net
      ensures kind != Identity && kind != Vwg ==>
                r == Ok(false) && net.pending == old(net.pending) && net.log == old(net.log) && net.jar == old(net.jar)
      ensures kind == Identity || kind == Vwg ==>
                var x := Next(old(net.pending));
                && net.pending == Rest(old(net.pending))
                && net.log == old(net.log) + [Sent(KeyRequest(kind), old(net.jar), x)]
                && net.jar == Absorb(old(net.jar), x)
                && (r.Raised? <==> KeyFetch(x).Raised?)
                && (r.Raised? ==> r.error == KeyFetch(x).error)
                && (r.Ok? ==> r.value == Verdict(KeyFetch(x).value, token, kind, Audience(kind, cfg.clientId), jwt))
    {
      if kind != Identity && kind != Vwg {
        return Ok(false);
      }
      var x := net.Send(KeyRequest(kind));
      var keys := KeyFetch(x);
      if keys.Raised? {
        return Raised(keys.error);
      }
      // the `try` block: any failure from here on is a plain "not verified"
      var list := Index(keys.value, "keys");
      if list.Raised? || !list.value.JArr? {
        return Ok(false);
      }
      var table := BuildKeyTable(list.value.items, jwt.keyLoads);
      if table.None? || !token.JStr? {
        return Ok(false);
      }
      var kid := jwt.headerKid(token.s);
      if kid.None? {
        return Ok(false);
      }
      var k := LookupKid(kind, kid.value);
      if k.None? || k.value !in table.value {
        return Ok(false);
      }
      r := Ok(jwt.signatureValid(token.s, table.value[k.value], Audience(kind, cfg.clientId)));
    }

    /** One exchange of `refresh_tokens`: the POST, then the verification of
        the token it brings, whose verdict is ignored. Two requests when it is
        granted, fewer when it is refused early. */
    method RequestGrant(url: string, body: map<string, Json>, field: string, kind: string) returns (g: Grant)
      requires kind == Identity || kind == Vwg
      modifies net
      ensures g == GrantOf(Next(old(net.pending)), Next(Skip(old(net.pending), 1)), field)
      ensures var used := if g.Granted? then 2 else g.used;
        && net.pending == Skip(old(net.pending), used)
        && |net.log| == |old(net.log)| + used
        && net.log[..|old(net.log)|] == old(net.log)
      ensures net.log[|old(net.log)|].request == HttpRequest(POST, url, map[], RefreshHeaders(cfg), body, map[], true)
      ensures GrantJar(old(net.jar), old(net.pending), g, net.jar)
    {
      ghost var p0 := net.pending;
      ghost var log0 := net.log;
      var x := net.Send(HttpRequest(POST, url, map[], RefreshHeaders(cfg), body, map[], true));
      if !HasStatus(x, 200) {
        return Refused(1);
      }
      var incoming := JsonOf(x.response);
      if incoming.Raised? || !incoming.value.JObj? || field !in incoming.value.fields {
        return Refused(1);
      }
      assert Skip(p0, 1) == Rest(p0);
      ghost var log1 := net.log;
      var verdict := VerifyTokens(incoming.value.fields[field], kind);
      assert Skip(p0, 2) == Rest(Skip(p0, 1));
      assert net.log[..|log0|] == log1[..|log0|];
      if verdict.Raised? {
        return Refused(2);
      }
      g := Granted(incoming.value.fields);
    }

    /** `refresh_tokens`, against its specification `Refresh`: the outcome and
        the new tokens depend only on the stored tokens and the replies, never
        on the verdict of a verification. */
    method RefreshTokens() returns (ok: bool)
      modifies this`tokens, net
      ensures var run := Refresh(old(tokens), old(net.pending));
        && ok == run.ok && tokens == run.tokens
        && net.pending == Skip(old(net.pending), run.used)
        && |net.log| == |old(net.log)| + run.used
      ensures Refresh(old(tokens), old(net.pending)).used >= 1 ==>
        && Field(old(tokens), Identity, "refresh_token").Ok?
        && net.log[|old(net.log)|].request ==
             HttpRequest(POST, RefreshUrl, map[], RefreshHeaders(cfg),
                         map["grant_type" := JStr("refresh_token"), "brand" := JStr("Skoda"),
                             "refresh_token" := Field(old(tokens), Identity, "refresh_token").value],
                         map[], true)
      ensures var run := Refresh(old(tokens), old(net.pending));
        run.used >= 3 ==>
          && Field(run.tokens, Identity, "id_token").Ok?
          && net.log[|old(net.log)| + 2].request ==
               HttpRequest(POST, MbbTokenUrl, map[], RefreshHeaders(cfg),
                           map["grant_type" := JStr("id_token"), "scope" := JStr("sc2:fal"),
                               "token" := Field(run.tokens, Identity, "id_token").value],
                           map[], true)
    {
      ghost var p0 := net.pending;
      ghost var log0 := net.log;
      var refreshToken := Field(tokens, Identity, "refresh_token");
      if refreshToken.Raised? {
        return false;
      }
      var body := map["grant_type" := JStr("refresh_token"), "brand" := JStr("Skoda"),
                      "refresh_token" := refreshToken.value];
      var first := RequestGrant(RefreshUrl, body, "id_token", Identity);
      if first.Refused? {
        return false;
      }
      var merged := MergeKeys(tokens[Identity].fields, first.incoming);
      tokens := tokens[Identity := JObj(merged)];

      ghost var p2 := net.pending;
      ghost var log2 := net.log;
      body := map["grant_type" := JStr("id_token"), "scope" := JStr("sc2:fal"),
                  "token" := tokens[Identity].fields["id_token"]];
      var second := RequestGrant(MbbTokenUrl, body, "access_token", Vwg);
      assert net.log[|log0|] == log2[|log0|];
      if second.Refused? {
        return false;
      }
      if Vwg !in tokens || !tokens[Vwg].JObj? {
        return false;
      }
      merged := MergeKeys(tokens[Vwg].fields, second.incoming);
      tokens := tokens[Vwg := JObj(merged)];
      ok := true;
    }

    /** `validate_tokens`: refresh exactly when one of the two tokens expires
        within the next minute (or already has); a missing or undecodable token
        raises. `now` is the current instant in whole seconds. */
    method ValidateTokens(now: int) returns (r: Result<bool>)
      modifies this`tokens, net
      ensures match Expiries(old(tokens), jwt)
        case Raised(e) =>
          r == Raised(e) && tokens == old(tokens) && net.pending == old(net.pending) && net.log == old(net.log)
        case Ok(exp) =>
          if TokenFreshness(exp.0, exp.1, now) == Fresh then
            r == Ok(true) && tokens == old(tokens) && net.pending == old(net.pending) && net.log == old(net.log)
          else
            var run := Refresh(old(tokens), old(net.pending));
            r == Ok(run.ok) && tokens == run.tokens && net.pending == Skip(old(net.pending), run.used)
    {
      var exp := Expiries(tokens, jwt);
      if exp.Raised? {
        return Raised(exp.error);
      }
      var idExp := exp.value.0;
      var atExp := exp.value.1;
      if now >= idExp || now >= atExp {
        var ok := RefreshTokens();
        return Ok(ok);
      } else if now + RefreshMargin >= idExp || now + RefreshMargin >= atExp {
        var ok := RefreshTokens();
        return Ok(ok);
      }
      r := Ok(true);
    }

    // -------------------------------------------------------------------
    // Requests

    /** `_request`: an error status raises before the cookie jar is touched;
        otherwise the jar takes the reply's cookies and the body is classified. */
    method Request(verb: Method, url: string, data: map<string, Json>) returns (r: Result<Json>)
      modifies this`jarCookie, net
      ensures var x := Next(old(net.pending));
        && r == RequestResult(x)
        && net.pending == Rest(old(net.pending))
        && net.log == old(net.log) + [Sent(old(Outgoing(verb, url, data)), old(net.jar), x)]
        && net.jar == Absorb(old(net.jar), x)
        && jarCookie == JarAfter(old(jarCookie), x)
    {
      var x := net.Send(Outgoing(verb, url, data));
      if x.Dropped? {
        return Raised(TransportError);
      }
      if x.response.status >= 400 {
        return Raised(ResponseError(x.response.status));
      }
      if jarCookie.None? {
        jarCookie := Some(x.response.cookies);
      } else {
        jarCookie := Some(jarCookie.value + x.response.cookies);
      }
      r := Ok(ResponseValue(x.response));
    }

    /** `get`: an error status comes back as `{'status': s}`, and a 401 also
        clears the logged-in flag. */
    method Get(ref: string, vin: string) returns (r: Result<Json>)
      modifies this`jarCookie, this`loggedIn, net
      ensures var x := Next(old(net.pending));
        && r == GetResult(x)
        && net.pending == Rest(old(net.pending))
        && net.log == old(net.log) + [Sent(old(Outgoing(GET, Url(ref, vin), map[])), old(net.jar), x)]
        && net.jar == Absorb(old(net.jar), x)
        && jarCookie == JarAfter(old(jarCookie), x)
        && loggedIn == if Unauthorized(x) then false else old(loggedIn)
    {
      r := Request(GET, Url(ref, vin), map[]);
      if r.Raised? && r.error.ResponseError? {
        if r.error.status == 401 {
          loggedIn := false;
        }
        r := Ok(StatusOnly(r.error.status));
      }
    }

    /** `post`: no error status is caught. */
    method Post(ref: string, vin: string, data: map<string, Json>) returns (r: Result<Json>)
      modifies this`jarCookie, net
      ensures var x := Next(old(net.pending));
        && r == RequestResult(x)
        && (x.Answered? && x.response.status >= 400 ==> r == Raised(ResponseError(x.response.status)))
        && net.pending == Rest(old(net.pending))
        && net.log == old(net.log) + [Sent(old(Outgoing(POST, Url(ref, vin), data)), old(net.jar), x)]
        && net.jar == Absorb(old(net.jar), x)
        && jarCookie == JarAfter(old(jarCookie), x)
    {
      r := Request(POST, Url(ref, vin), data);
    }

    /** `set_token` followed by `get`, as every data collector starts: a
        missing or malformed token raises before anything is sent. */
    method AuthorizedGet(kind: string, ref: string, vin: string) returns (r: Result<Json>)
      modifies this`headers, this`jarCookie, this`loggedIn, net
      ensures Bearer(old(tokens), kind).Raised? ==>
                && r == Raised(Bearer(old(tokens), kind).error)
                && headers == old(headers) && jarCookie == old(jarCookie) && loggedIn == old(loggedIn)
                && net.pending == old(net.pending) && net.log == old(net.log) && net.jar == old(net.jar)
      ensures Bearer(old(tokens), kind).Ok? ==>
                var x := Next(old(net.pending));
                var authorized := old(headers)[Authorization := Bearer(old(tokens), kind).value];
                && r == GetResult(x)
                && headers == authorized
                && net.pending == Rest(old(net.pending))
                && net.log == old(net.log) + [Sent(HttpRequest(GET, old(Url(ref, vin)), map[], authorized, map[],
                                                               CookieArg(old(jarCookie)), true), old(net.jar), x)]
                && net.jar == Absorb(old(net.jar), x)
                && jarCookie == JarAfter(old(jarCookie), x)
                && loggedIn == if Unauthorized(x) then false else old(loggedIn)
    {
      var bearer := SetToken(kind);
      if bearer.Raised? {
        return Raised(bearer.error);
      }
      r := Get(ref, vin);
    }

    // -------------------------------------------------------------------
    // Data collection

    /** `getHomeRegion`: on success the SPIN base and the home-region base are
        derived from the region's `baseUri`; any failure clears the logged-in
        flag and leaves both bases alone. */
    method GetHomeRegion(vin: string) returns (r: Option<string>)
      modifies this`headers, this`jarCookie, this`loggedIn, this`authRefUrl, this`spinRefUrl, net
      ensures Bearer(old(tokens), Vwg).Raised? ==>
                && r.None? && headers == old(headers) && jarCookie == old(jarCookie)
                && net.pending == old(net.pending) && net.log == old(net.log) && net.jar == old(net.jar)
      ensures Bearer(old(tokens), Vwg).Ok? ==>
                var x := Next(old(net.pending));
                var authorized := old(headers)[Authorization := Bearer(old(tokens), Vwg).value];
                && r == (if GetResult(x).Ok? then RegionContent(GetResult(x).value) else None)
                && headers == authorized
                && net.pending == Rest(old(net.pending))
                && net.log == old(net.log) + [Sent(HttpRequest(GET, old(Url(HomeRegionUrl, vin)), map[], authorized, map[],
                                                               CookieArg(old(jarCookie)), true), old(net.jar), x)]
                && net.jar == Absorb(old(net.jar), x)
                && jarCookie == JarAfter(old(jarCookie), x)
      ensures r.Some? ==>
                spinRefUrl == SpinBase(r.value) && authRefUrl == AuthBase(r.value) && loggedIn == old(loggedIn)
      ensures r.None? ==> !loggedIn && spinRefUrl == old(spinRefUrl) && authRefUrl == old(authRefUrl)
    {
      var response := AuthorizedGet(Vwg, HomeRegionUrl, vin);
      if response.Raised? {
        loggedIn := false;
        return None;
      }
      var content := RegionContent(response.value);
      if content.None? {
        loggedIn := false;
        return None;
      }
      if Unauthorized(Next(old(net.pending))) {
        RegionNeedsDocument(401);
      }
      authRefUrl := AuthBase(content.value);
      spinRefUrl := SpinBase(content.value);
      r := content;
    }

    /** A `get*` fetcher that uses the vehicle-API token: a missing token or a
        transport failure gives the error marker, anything else is classified. */
    method Fetch(f: Fetcher, vin: string) returns (data: Json)
      modifies this`headers, this`jarCookie, this`loggedIn, net
      ensures Bearer(old(tokens), Vwg).Raised? ==>
                && data == ErrorUnknown() && loggedIn == old(loggedIn) && headers == old(headers) && jarCookie == old(jarCookie)
                && net.pending == old(net.pending) && net.log == old(net.log) && net.jar == old(net.jar)
      ensures Bearer(old(tokens), Vwg).Ok? ==>
                var x := Next(old(net.pending));
                var authorized := old(headers)[Authorization := Bearer(old(tokens), Vwg).value];
                && data == (if GetResult(x).Ok? then Classify(f, GetResult(x).value) else ErrorUnknown())
                && headers == authorized
                && net.pending == Rest(old(net.pending))
                && net.log == old(net.log) + [Sent(HttpRequest(GET, old(Url(PathOf(f), vin)), map[], authorized, map[],
                                                               CookieArg(old(jarCookie)), true), old(net.jar), x)]
                && net.jar == Absorb(old(net.jar), x)
                && jarCookie == JarAfter(old(jarCookie), x)
                && loggedIn == if Unauthorized(x) then false else old(loggedIn)
    {
      var response := AuthorizedGet(Vwg, PathOf(f), vin);
      if response.Raised? {
        return ErrorUnknown();
      }
      data := Classify(f, response.value);
    }

    /** `getRealCarData`: the customer profile, found through the `sub` claim
        of the identity access token and fetched with that token. */
    method FetchRealCarData(vin: string) returns (data: Json)
      modifies this`headers, this`jarCookie, this`loggedIn, net
      ensures Subject(old(tokens), jwt).None? ==>
                && data == ErrorUnknown() && loggedIn == old(loggedIn) && headers == old(headers) && jarCookie == old(jarCookie)
                && net.pending == old(net.pending) && net.log == old(net.log) && net.jar == old(net.jar)
      ensures Subject(old(tokens), jwt).Some? ==>
                var x := Next(old(net.pending));
                var authorized := old(headers)[Authorization := Bearer(old(tokens), Identity).value];
                && data == (if GetResult(x).Ok? then RealCarReport(GetResult(x).value, vin) else ErrorUnknown())
                && headers == authorized
                && net.pending == Rest(old(net.pending))
                && net.log == old(net.log) + [Sent(HttpRequest(GET, old(Url(ProfileUrl + Subject(tokens, jwt).value + "/realCarData", "")),
                                                               map[], authorized, map[], CookieArg(old(jarCookie)), true), old(net.jar), x)]
                && net.jar == Absorb(old(net.jar), x)
                && jarCookie == JarAfter(old(jarCookie), x)
                && loggedIn == if Unauthorized(x) then false else old(loggedIn)
    {
      var accessToken := Field(tokens, Identity, "access_token");
      if accessToken.Raised? || !accessToken.value.JStr? {
        return ErrorUnknown();
      }
      var sub := jwt.tokenSubject(accessToken.value.s);
      if sub.None? {
        return ErrorUnknown();
      }
      var response := AuthorizedGet(Identity, ProfileUrl + sub.value + "/realCarData", "");
      if response.Raised? {
        return ErrorUnknown();
      }
      data := RealCarReport(response.value, vin);
    }

    // -------------------------------------------------------------------
    // Login

    /** The start of `_login`: fresh copies of both header sets, an empty
        session cookie jar, and the discovery document. */
    method Discover() returns (s: Step<(string, Json)>)
      modifies this`headers, this`authHeaders, net
      ensures var x := Next(old(net.pending));
        && s == DiscoveryStep(x)
        && net.pending == Rest(old(net.pending))
        && net.log == old(net.log) + [Sent(HttpRequest(GET, DiscoveryUrl, map[], map[], map[], map[], true), map[], x)]
        && net.jar == Absorb(map[], x)
      ensures headers == cfg.sessionHeaders && authHeaders == cfg.authHeaders
    {
      headers := cfg.sessionHeaders;
      authHeaders := cfg.authHeaders;
      net.ClearCookies();
      var x := net.Send(HttpRequest(GET, DiscoveryUrl, map[], map[], map[], map[], true));
      s := DiscoveryStep(x);
    }

    /** The authorization page, which carries the e-mail form; once the form
        is read, the sign-in headers name the endpoint and the issuer. */
    method OpenAuthorization(endpoint: string, issuer: Json, nonce: string) returns (s: Step<(map<string, string>, string)>)
      modifies this`authHeaders, net
      ensures var x := Next(old(net.pending));
        var params := map["nonce" := nonce, "response_type" := "code id_token token", "scope" := Scope,
                          "redirect_uri" := cfg.appUri, "client_id" := cfg.clientId];
        && s == FormStep(x, Authorize, "emailPasswordForm", "email", username, issuer)
        && net.pending == Rest(old(net.pending))
        && net.log == old(net.log) + [Sent(HttpRequest(GET, endpoint, params, old(authHeaders), map[], map[], true), old(net.jar), x)]
        && net.jar == Absorb(old(net.jar), x)
      ensures authHeaders == if s.Continue? then old(authHeaders)["Referer" := endpoint]["Origin" := issuer.s] else old(authHeaders)
    {
      var params := map["nonce" := nonce, "response_type" := "code id_token token", "scope" := Scope,
                        "redirect_uri" := cfg.appUri, "client_id" := cfg.clientId];
      var x := net.Send(HttpRequest(GET, endpoint, params, authHeaders, map[], map[], true));
      s := FormStep(x, Authorize, "emailPasswordForm", "email", username, issuer);
      if s.Continue? {
        authHeaders := authHeaders["Referer" := endpoint]["Origin" := issuer.s];
      }
    }

    /** The e-mail form, answered with the password form; once that is read,
        the sign-in headers name the e-mail form's URL as referrer. */
    method SubmitEmail(url: string, fields: map<string, string>, issuer: Json) returns (s: Step<(map<string, string>, string)>)
      modifies this`authHeaders, net
      ensures var x := Next(old(net.pending));
        && s == FormStep(x, Email, "credentialsForm", "password", password, issuer)
        && net.pending == Rest(old(net.pending))
        && net.log == old(net.log) + [Sent(HttpRequest(POST, url, map[], old(authHeaders), FormData(fields), map[], true), old(net.jar), x)]
        && net.jar == Absorb(old(net.jar), x)
      ensures authHeaders == if s.Continue? then old(authHeaders)["Referer" := url]["Origin" := issuer.s] else old(authHeaders)
    {
      var x := net.Send(HttpRequest(POST, url, map[], authHeaders, FormData(fields), map[], true));
      s := FormStep(x, Email, "credentialsForm", "password", password, issuer);
      if s.Continue? {
        authHeaders := authHeaders["Referer" := url]["Origin" := issuer.s];
      }
    }

    /** The password form, posted without following the redirect it is answered with. */
    method SubmitPassword(url: string, fields: map<string, string>) returns (s: Step<string>)
      modifies net
      ensures var x := Next(old(net.pending));
        && s == PasswordStep(x)
        && net.pending == Rest(old(net.pending))
        && net.log == old(net.log) + [Sent(HttpRequest(POST, url, map[], authHeaders, FormData(fields), map[], false), old(net.jar), x)]
        && net.jar == Absorb(old(net.jar), x)
    {
      var x := net.Send(HttpRequest(POST, url, map[], authHeaders, FormData(fields), map[], false));
      s := PasswordStep(x);
    }

    /** The redirect chase after the password form, against its specification
        `Follow`: each GET goes to the previous reply's `Location`, without
        following redirects itself. */
    method FollowRedirects(start: string) returns (f: Redirects)
      modifies net
      ensures f == Follow(start, old(net.pending), cfg.appUri, MaxDepth)
      ensures net.pending == Skip(old(net.pending), Hops(f, MaxDepth))
      ensures |net.log| == |old(net.log)| + Hops(f, MaxDepth)
      ensures Chased(net.log, old(net.log))
    {
      var ref := start;
      var depth := MaxDepth;
      while !StartsWith(ref, cfg.appUri)
        invariant 1 <= depth <= MaxDepth
        invariant net.pending == Skip(old(net.pending), MaxDepth - depth)
        invariant Follow(start, old(net.pending), cfg.appUri, MaxDepth) ==
                  Shift(Follow(ref, net.pending, cfg.appUri, depth), MaxDepth - depth)
        invariant |net.log| == |old(net.log)| + MaxDepth - depth
        invariant Chased(net.log, old(net.log))
        decreases depth
      {
        var request := HttpRequest(GET, ref, map[], authHeaders, map[], map[], false);
        ghost var sent, jar := net.log, net.jar;
        FollowFirst(ref, net.pending, cfg.appUri, depth);
        var x := net.Send(request);
        ChasedStep(sent, old(net.log), Sent(request, jar, x));
        var loc := Location(x);
        if loc.None? {
          // a failed GET or a reply without `Location` ends the chase where it is
          return Stopped(ref, MaxDepth - depth + 1);
        }
        ref := loc.value;
        depth := depth - 1;
        if depth == 0 {
          return Exhausted;
        }
      }
      FollowFirst(ref, net.pending, cfg.appUri, depth);
      f := Stopped(ref, MaxDepth - depth);
    }

    /** The forms of `_login`: the discovery document, the authorization
        page and the e-mail form; it hands on the password form's fields and
        URL. */
    method Credentials(nonce: string) returns (s: Step<(map<string, string>, string)>)
      modifies this`headers, this`authHeaders, net
      ensures var run := CredentialsRun(old(net.pending), username, password);
        && s == run.step
        && net.pending == Skip(old(net.pending), run.used)
        && |net.log| == |old(net.log)| + run.used
      ensures headers == cfg.sessionHeaders
      ensures |net.log| > |old(net.log)|
      ensures Opening(net.log, |old(net.log)|, Next(old(net.pending)), cfg.authHeaders)
      ensures s == Stop(Aborted(Discovery)) <==> Next(old(net.pending)).Answered? && Next(old(net.pending)).response.status != 200
      ensures s.Stop? ==>
                s.result.Failed?
                || (&& (s.result == Aborted(Discovery) || s.result == Aborted(Authorize) || s.result == Aborted(Email))
                    && net.log[|net.log| - 1].reply.Answered? && net.log[|net.log| - 1].reply.response.status != 200)
      ensures s.Continue? ==> |net.log| == |old(net.log)| + 3
    {
      ghost var replies := net.pending;
      var discovery := Discover();
      if discovery.Stop? {
        OpeningOf(old(net.log), Next(replies), cfg.authHeaders, []);
        return Stop(discovery.result);
      }
      var issuer := discovery.value.1;
      assert net.pending == Skip(replies, 1);
      ghost var discovered := net.log;
      var email := OpenAuthorization(discovery.value.0, issuer, nonce);
      OpeningOf(old(net.log), Next(replies), cfg.authHeaders, [net.log[|discovered|]]);
      if email.Stop? {
        return Stop(email.result);
      }
      assert net.pending == Skip(replies, 2);
      ghost var authorized := net.log;
      s := SubmitEmail(email.value.1, email.value.0, issuer);
      OpeningKept(authorized, net.log, |old(net.log)|, Next(replies), cfg.authHeaders);
      assert net.pending == Skip(replies, 3);
    }

    /** The sign-in half of `_login`, up to the end of the redirect chase: it
        hands on the URI the chase ended at. */
    method SignIn(nonce: string) returns (s: Step<string>)
      modifies this`headers, this`authHeaders, net
      ensures var run := SignInRun(old(net.pending), cfg.appUri, username, password);
        && s == run.step
        && net.pending == Skip(old(net.pending), run.used)
        && |net.log| == |old(net.log)| + run.used
      ensures headers == cfg.sessionHeaders
      ensures |net.log| > |old(net.log)|
      ensures Opening(net.log, |old(net.log)|, Next(old(net.pending)), cfg.authHeaders)
      ensures s == Stop(Aborted(Discovery)) <==> Next(old(net.pending)).Answered? && Next(old(net.pending)).response.status != 200
      ensures s.Stop? ==>
                s.result.GaveUp? || s.result.Failed?
                || (&& (s.result == Aborted(Discovery) || s.result == Aborted(Authorize) || s.result == Aborted(Email))
                    && net.log[|net.log| - 1].reply.Answered? && net.log[|net.log| - 1].reply.response.status != 200)
      ensures s.Stop? ==> Transcript(s.result, |old(net.log)|, net.log)
    {
      ghost var replies := net.pending;
      var password := Credentials(nonce);
      if password.Stop? {
        return Stop(password.result);
      }
      ghost var asked := net.log;
      var start := SubmitPassword(password.value.1, password.value.0);
      assert net.pending == Skip(replies, 4);
      OpeningKept(asked, net.log, |old(net.log)|, Next(replies), cfg.authHeaders);
      if start.Stop? {
        return Stop(start.result);
      }
      ghost var posted := net.log;
      var chase := FollowRedirects(start.value);
      OpeningKept(posted, net.log, |old(net.log)|, Next(replies), cfg.authHeaders);
      if chase.Exhausted? {
        return Stop(GaveUp);
      }
      s := Continue(chase.ref);
    }

    /** The authorization code exchanged for the identity tokens; the reply is
        stored as they are before its id token is looked up. */
    method ExchangeCode(code: string, idToken: string) returns (s: Step<Json>)
      modifies this`tokens, net
      ensures var x := Next(old(net.pending));
        && s == TokenStep(x, CodeExchange, "id_token")
        && net.pending == Rest(old(net.pending))
        && net.log == old(net.log) + [Sent(HttpRequest(POST, ExchangeUrl, map[], authHeaders,
                                                      map["auth_code" := JStr(code), "id_token" := JStr(idToken),
                                                          "brand" := JStr("skoda")],
                                                      map[], false), old(net.jar), x)]
        && net.jar == Absorb(old(net.jar), x)
        && tokens == if TokenReply(x, CodeExchange).Some? then old(tokens)[Identity := TokenReply(x, CodeExchange).value]
                     else old(tokens)
    {
      var body := map["auth_code" := JStr(code), "id_token" := JStr(idToken), "brand" := JStr("skoda")];
      var x := net.Send(HttpRequest(POST, ExchangeUrl, map[], authHeaders, body, map[], false));
      s := TokenStep(x, CodeExchange, "id_token");
      var reply := TokenReply(x, CodeExchange);
      if reply.Some? {
        tokens := tokens[Identity := reply.value];
      }
    }

    /** The identity id token exchanged for the vehicle-API tokens, stored
        as they are before the access token is looked up. */
    method ExchangeIdToken(idToken: Json) returns (s: Step<Json>)
      modifies this`tokens, net
      ensures var x := Next(old(net.pending));
        && s == TokenStep(x, SecondaryExchange, "access_token")
        && net.pending == Rest(old(net.pending))
        && net.log == old(net.log) + [Sent(HttpRequest(POST, MbbTokenUrl, map[], AppHeaders(cfg),
                                                      map["grant_type" := JStr("id_token"), "token" := idToken,
                                                          "scope" := JStr("sc2:fal")],
                                                      map[], false), old(net.jar), x)]
        && net.jar == Absorb(old(net.jar), x)
        && tokens == if TokenReply(x, SecondaryExchange).Some? then old(tokens)[Vwg := TokenReply(x, SecondaryExchange).value]
                     else old(tokens)
    {
      var body := map["grant_type" := JStr("id_token"), "token" := idToken, "scope" := JStr("sc2:fal")];
      var x := net.Send(HttpRequest(POST, MbbTokenUrl, map[], AppHeaders(cfg), body, map[], false));
      s := TokenStep(x, SecondaryExchange, "access_token");
      var reply := TokenReply(x, SecondaryExchange);
      if reply.Some? {
        tokens := tokens[Vwg := reply.value];
      }
    }

    /** The identity half of the token exchanges: the code and id token from
        the final redirect's fragment, exchanged for the identity tokens, whose
        id token is then verified (the verdict is ignored). */
    method IdentityTokens(ref: string) returns (s: Step<Json>)
      modifies this`tokens, net
      ensures var run := IdentityRun(ref, old(net.pending), old(tokens), urllib.fragmentParam);
        && s == run.step && tokens == run.tokens
        && net.pending == Skip(old(net.pending), run.used)
        && |net.log| == |old(net.log)| + run.used
      ensures |net.log| >= |old(net.log)|
      ensures old(net.log) <= net.log
      ensures s.Stop? ==>
                s.result.Failed?
                || (&& s.result == Aborted(CodeExchange) && tokens == old(tokens) && |net.log| > |old(net.log)|
                    && net.log[|net.log| - 1].reply.Answered? && net.log[|net.log| - 1].reply.response.status != 200)
      ensures s.Continue? ==> tokens.Keys == old(tokens).Keys + {Identity}
    {
      ghost var replies := net.pending;
      var codes := Fragment(ref, urllib.fragmentParam);
      if codes.Raised? {
        return Stop(Failed(codes.error));
      }
      s := ExchangeCode(codes.value.0, codes.value.1);
      if s.Stop? {
        return;
      }
      assert net.pending == Skip(replies, 1);
      var verified := VerifyTokens(s.value, Identity);
      assert net.pending == Skip(replies, 2);
      if verified.Raised? {
        return Stop(Failed(verified.error));
      }
    }

    /** The vehicle-API half: the id token exchanged for the vehicle-API
        tokens, whose access token is verified (the verdict is ignored) and
        then becomes the bearer header; only here is the flag set. */
    method VehicleTokens(idToken: Json) returns (r: LoginResult)
      modifies this`headers, this`tokens, this`loggedIn, net
      ensures var run := VehicleRun(old(net.pending), old(tokens));
        && r == run.result && tokens == run.tokens
        && net.pending == Skip(old(net.pending), run.used)
        && |net.log| == |old(net.log)| + run.used
        && loggedIn == FlagAfter(r, old(loggedIn))
      ensures !r.GaveUp? && (r.Aborted? ==> r.stage == SecondaryExchange)
      ensures !r.LoggedIn? ==> headers == old(headers)
      ensures r.LoggedIn? ==>
                loggedIn && Bearer(tokens, Vwg).Ok?
                && headers == old(headers)[Authorization := Bearer(tokens, Vwg).value]
                && tokens.Keys == old(tokens).Keys + {Vwg}
      ensures r.Aborted? ==>
                loggedIn == old(loggedIn) && |net.log| > |old(net.log)|
                && net.log[|net.log| - 1].reply.Answered? && net.log[|net.log| - 1].reply.response.status > 400
      ensures r.Failed? ==> !loggedIn
      ensures |net.log| >= |old(net.log)|
      ensures old(net.log) <= net.log
      ensures r.LoggedIn? ==>
                |net.log| >= |old(net.log)| + 2
                && var exchange := net.log[|net.log| - 2];
                   exchange.request.url == MbbTokenUrl && exchange.reply.Answered? && exchange.reply.response.status <= 400
    {
      ghost var replies := net.pending;
      VehicleRunOutcomes(replies, tokens);
      var accessToken := ExchangeIdToken(idToken);
      if accessToken.Stop? {
        if accessToken.result.Failed? {
          loggedIn := false;
        }
        return accessToken.result;
      }
      ghost var exchanged := net.log;
      assert net.pending == Skip(replies, 1);
      var verified := VerifyTokens(accessToken.value, Vwg);
      ghost var checked := net.log;
      assert net.pending == Skip(replies, 2);
      if verified.Raised? {
        loggedIn := false;
        return Failed(verified.error);
      }
      var bearer := Bearer(tokens, Vwg);
      if bearer.Raised? {
        loggedIn := false;
        return Failed(bearer.error);
      }
      headers := headers[Authorization := bearer.value];
      loggedIn := true;
      r := LoggedIn;
      assert checked[|checked| - 2] == exchanged[|exchanged| - 1];
    }

    /** The token half of `_login`, from the URI the redirect chase ended at. */
    method Authenticate(ref: string) returns (r: LoginResult)
      modifies this`headers, this`tokens, this`loggedIn, net
      ensures var run := AuthenticateRun(ref, old(net.pending), old(tokens), urllib.fragmentParam);
        && r == run.result && tokens == run.tokens
        && net.pending == Skip(old(net.pending), run.used)
        && |net.log| == |old(net.log)| + run.used
        && loggedIn == FlagAfter(r, old(loggedIn))
      ensures !r.GaveUp?
      ensures !r.LoggedIn? ==> headers == old(headers)
      ensures r.LoggedIn? ==>
                loggedIn && Bearer(tokens, Vwg).Ok?
                && headers == old(headers)[Authorization := Bearer(tokens, Vwg).value]
                && Identity in tokens && Vwg in tokens
      ensures r.Aborted? ==> loggedIn == old(loggedIn) && (r.stage == CodeExchange || r.stage == SecondaryExchange)
      ensures Transcript(r, |old(net.log)|, net.log)
      ensures r == Aborted(CodeExchange) ==> tokens == old(tokens)
      ensures r.Failed? ==> !loggedIn
      ensures |net.log| >= |old(net.log)|
      ensures old(net.log) <= net.log
    {
      ghost var replies := net.pending;
      var idToken := IdentityTokens(ref);
      if idToken.Stop? {
        if idToken.result.Failed? {
          loggedIn := false;
        }
        return idToken.result;
      }
      ghost var identity := IdentityRun(ref, replies, old(tokens), urllib.fragmentParam);
      assert net.pending == Skip(replies, 2);
      r := VehicleTokens(idToken.value);
    }

    /** `_login`; `nonce` stands for the value `getNonce` derives from the
        clock. A rejected status aborts the login without touching the
        logged-in flag, an exception clears it, and running out of redirects
        gives up; only a login that gets through every step sets the flag and
        the bearer header. */
    method Login(nonce: string) returns (r: LoginResult)
      modifies this`headers, this`authHeaders, this`tokens, this`loggedIn, net
      ensures var run := LoginRun(old(net.pending), old(tokens), cfg, urllib.fragmentParam, username, password);
        && r == run.result && tokens == run.tokens
        && net.pending == Skip(old(net.pending), run.used)
        && |net.log| == |old(net.log)| + run.used
        && loggedIn == FlagAfter(r, old(loggedIn))
      ensures !r.LoggedIn? ==> headers == cfg.sessionHeaders
      ensures r.LoggedIn? ==>
                loggedIn && Bearer(tokens, Vwg).Ok?
                && headers == cfg.sessionHeaders[Authorization := Bearer(tokens, Vwg).value]
                && Identity in tokens && Vwg in tokens
      ensures r.Aborted? || r.GaveUp? ==> loggedIn == old(loggedIn)
      ensures r.Failed? ==> !loggedIn
      ensures (r.Aborted? && r.stage != SecondaryExchange) || r.GaveUp? ==> tokens == old(tokens)
      ensures |net.log| > |old(net.log)|
      ensures Opening(net.log, |old(net.log)|, Next(old(net.pending)), cfg.authHeaders)
      ensures r == Aborted(Discovery) <==> Next(old(net.pending)).Answered? && Next(old(net.pending)).response.status != 200
      ensures Transcript(r, |old(net.log)|, net.log)
    {
      ghost var replies := net.pending;
      ghost var forms := SignInRun(replies, cfg.appUri, username, password);
      LoginComposes(replies, tokens, cfg, urllib.fragmentParam, username, password, forms);
      var signIn := SignIn(nonce);
      if signIn.Stop? {
        if signIn.result.Failed? {
          loggedIn := false;
        }
        return signIn.result;
      }
      ghost var signedIn := net.log;
      r := Authenticate(signIn.value);
      TranscriptFrom(r, |old(net.log)|, |signedIn|, net.log);
      OpeningKept(signedIn, net.log, |old(net.log)|, Next(replies), cfg.authHeaders);
    }
  }
}
