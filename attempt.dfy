/**
  A login attempt as a function of the replies the services give: which
  outcome each sequence of replies leads to, what ends up in the token
  dictionaries, and how many requests are sent. The connection's login
  methods are proved equal to these functions; the lemmas below state what
  the functions promise.
 */
module LoginAttempt {
  import opened Values
  import opened Http
  import opened Tokens
  import opened LoginFlow
  import opened TokenRefresh

  /** A step of the login together with the number of replies it consumed. */
  datatype Progress<T> = Progress(step: Step<T>, used: nat)

  /** A token step: its outcome, the token dictionaries after it, and the replies consumed. */
  datatype Leg<T> = Leg(step: Step<T>, tokens: map<string, Json>, used: nat)

  /** A whole login, or its token half. */
  datatype Attempt = Attempt(result: LoginResult, tokens: map<string, Json>, used: nat)

  /** The discovery document, the authorization page and the e-mail form. */
  function CredentialsRun(replies: Replies, username: string, password: string)
    : (run: Progress<(map<string, string>, string)>)
    ensures 1 <= run.used <= 3 && (run.step.Continue? ==> run.used == 3)
  {
    match DiscoveryStep(Next(replies))
    case Stop(r) => Progress(Stop(r), 1)
    case Continue(found) =>
      match FormStep(Next(Skip(replies, 1)), Authorize, "emailPasswordForm", "email", username, found.1)
      case Stop(r) => Progress(Stop(r), 2)
      case Continue(_) =>
        Progress(FormStep(Next(Skip(replies, 2)), Email, "credentialsForm", "password", password, found.1), 3)
  }

  /** The sign-in: the forms, the password, and the redirect chase. */
  function SignInRun(replies: Replies, appUri: string, username: string, password: string): (run: Progress<string>)
    ensures run.step.Stop? ==> !run.step.result.LoggedIn?
  {
    var forms := CredentialsRun(replies, username, password);
    if forms.step.Stop? then Progress(Stop(forms.step.result), forms.used)
    else
      match PasswordStep(Next(Skip(replies, 3)))
      case Stop(r) => Progress(Stop(r), 4)
      case Continue(start) =>
        match Follow(start, Skip(replies, 4), appUri, MaxDepth)
        case Exhausted => Progress(Stop(GaveUp), 4 + MaxDepth)
        case Stopped(ref, hops) => Progress(Continue(ref), 4 + hops)
  }

  /** The token dictionaries once a token exchange's reply has been stored
      under `kind` (only a reply past the status check, with a JSON body, is). */
  function Stored(tokens: map<string, Json>, kind: string, x: Exchange, stage: Stage): map<string, Json>
  {
    if TokenReply(x, stage).Some? then tokens[kind := TokenReply(x, stage).value] else tokens
  }

  /** The code exchange and the verification of its id token, whose verdict
      is ignored; only a failing key fetch matters. */
  function IdentityRun(ref: string, replies: Replies, tokens: map<string, Json>, parse: Externals.FragmentParser): (run: Leg<Json>)
    ensures run.step.Continue? ==> run.used == 2
  {
    match Fragment(ref, parse)
    case Raised(e) => Leg(Stop(Failed(e)), tokens, 0)
    case Ok(_) =>
      var x := Next(replies);
      var stored := Stored(tokens, Identity, x, CodeExchange);
      match TokenStep(x, CodeExchange, "id_token")
      case Stop(r) => Leg(Stop(r), stored, 1)
      case Continue(idToken) =>
        match KeyFetch(Next(Skip(replies, 1)))
        case Raised(e) => Leg(Stop(Failed(e)), stored, 2)
        case Ok(_) => Leg(Continue(idToken), stored, 2)
  }

  /** The second exchange, the verification of its access token, and the
      bearer header built from it. */
  function VehicleRun(replies: Replies, tokens: map<string, Json>): Attempt
  {
    var x := Next(replies);
    var stored := Stored(tokens, Vwg, x, SecondaryExchange);
    match TokenStep(x, SecondaryExchange, "access_token")
    case Stop(r) => Attempt(r, stored, 1)
    case Continue(_) =>
      match KeyFetch(Next(Skip(replies, 1)))
      case Raised(e) => Attempt(Failed(e), stored, 2)
      case Ok(_) =>
        match Bearer(stored, Vwg)
        case Raised(e) => Attempt(Failed(e), stored, 2)
        case Ok(_) => Attempt(LoggedIn, stored, 2)
  }

  /** The vehicle-API half never gives up; it aborts only at the second
      exchange, on a reply above 400 that leaves the tokens as they were, and
      it logs in only after two requests, the first answered with at most 400,
      leaving a bearer token stored under the vehicle-API authority. */
  lemma VehicleRunOutcomes(replies: Replies, tokens: map<string, Json>)
    ensures var run := VehicleRun(replies, tokens);
      && !run.result.GaveUp? && 1 <= run.used <= 2
      && (run.result.Aborted? ==>
            && run.result.stage == SecondaryExchange && run.used == 1 && run.tokens == tokens
            && Next(replies).Answered? && Next(replies).response.status > 400)
      && (run.result.LoggedIn? ==>
            && run.used == 2 && Bearer(run.tokens, Vwg).Ok? && run.tokens.Keys == tokens.Keys + {Vwg}
            && Next(replies).Answered? && Next(replies).response.status <= 400)
  {
  }

  /** The token half of the login, from the URI the chase ended at. */
  function AuthenticateRun(ref: string, replies: Replies, tokens: map<string, Json>, parse: Externals.FragmentParser): Attempt
  {
    var identity := IdentityRun(ref, replies, tokens, parse);
    match identity.step
    case Stop(r) => Attempt(r, identity.tokens, identity.used)
    case Continue(_) =>
      var vehicle := VehicleRun(Skip(replies, identity.used), identity.tokens);
      Attempt(vehicle.result, vehicle.tokens, identity.used + vehicle.used)
  }

  /** The login once the sign-in has come to an end: a sign-in that stopped
      is the login's result, one that reached the app's URI goes on to the
      token half with the replies it left. */
  function Conclude(signIn: Progress<string>, replies: Replies, tokens: map<string, Json>, parse: Externals.FragmentParser): Attempt
  {
    match signIn.step
    case Stop(r) => Attempt(r, tokens, signIn.used)
    case Continue(ref) =>
      var rest := AuthenticateRun(ref, Skip(replies, signIn.used), tokens, parse);
      Attempt(rest.result, rest.tokens, signIn.used + rest.used)
  }

  /** `_login` against the replies: its outcome, the tokens afterwards and the
      number of requests sent. */
  function LoginRun(replies: Replies, tokens: map<string, Json>, cfg: Externals.Config, parse: Externals.FragmentParser,
                    username: string, password: string): Attempt
  {
    Conclude(SignInRun(replies, cfg.appUri, username, password), replies, tokens, parse)
  }

  /** The login is its sign-in followed, when that reaches the app's URI, by
      the token half on the replies the sign-in left. */
  lemma LoginComposes(replies: Replies, tokens: map<string, Json>, cfg: Externals.Config, parse: Externals.FragmentParser,
                      username: string, password: string, signIn: Progress<string>)
    requires signIn == SignInRun(replies, cfg.appUri, username, password)
    ensures signIn.step.Stop? ==>
              LoginRun(replies, tokens, cfg, parse, username, password) == Attempt(signIn.step.result, tokens, signIn.used)
    ensures signIn.step.Continue? ==>
              var rest := AuthenticateRun(signIn.step.value, Skip(replies, signIn.used), tokens, parse);
              LoginRun(replies, tokens, cfg, parse, username, password) == Attempt(rest.result, rest.tokens, signIn.used + rest.used)
  {
  }

  /** The logged-in flag after a login: set by success, cleared by an
      exception, untouched by a rejected status or the redirect limit. */
  function FlagAfter(r: LoginResult, before: bool): bool
  {
    if r.LoggedIn? then true else if r.Failed? then false else before
  }

  // ---------------------------------------------------------------------
  // What a login attempt promises

  /** A rejected authorization page aborts the login at that stage, after two
      requests and with no token touched. */
  lemma RejectedAuthorizationAborts(replies: Replies, tokens: map<string, Json>, cfg: Externals.Config,
                                    parse: Externals.FragmentParser, username: string, password: string)
    requires DiscoveryStep(Next(replies)).Continue?
    requires Next(Skip(replies, 1)).Answered? && Next(Skip(replies, 1)).response.status != 200
    ensures LoginRun(replies, tokens, cfg, parse, username, password) == Attempt(Aborted(Authorize), tokens, 2)
  {
  }

  /** A rejected e-mail form aborts the login at that stage, after three
      requests and with no token touched. */
  lemma RejectedEmailAborts(replies: Replies, tokens: map<string, Json>, cfg: Externals.Config,
                            parse: Externals.FragmentParser, username: string, password: string)
    requires DiscoveryStep(Next(replies)).Continue?
    requires FormStep(Next(Skip(replies, 1)), Authorize, "emailPasswordForm", "email", username,
                      DiscoveryStep(Next(replies)).value.1).Continue?
    requires Next(Skip(replies, 2)).Answered? && Next(Skip(replies, 2)).response.status != 200
    ensures LoginRun(replies, tokens, cfg, parse, username, password) == Attempt(Aborted(Email), tokens, 3)
  {
  }

  /** Once the chase has ended at a URI with a code, a code exchange answered
      with anything but 200 aborts the login at that stage, with no token touched. */
  lemma RejectedCodeExchangeAborts(replies: Replies, tokens: map<string, Json>, cfg: Externals.Config,
                                   parse: Externals.FragmentParser, username: string, password: string,
                                   signIn: Progress<string>)
    requires signIn == SignInRun(replies, cfg.appUri, username, password)
    requires signIn.step.Continue? && Fragment(signIn.step.value, parse).Ok?
      && Next(Skip(replies, signIn.used)).Answered? && Next(Skip(replies, signIn.used)).response.status != 200
    ensures LoginRun(replies, tokens, cfg, parse, username, password) == Attempt(Aborted(CodeExchange), tokens, signIn.used + 1)
  {
  }

  /** Once the identity tokens are in, a second exchange answered above 400
      aborts the login at that stage; the identity tokens stay stored. */
  lemma RejectedSecondExchangeAborts(replies: Replies, tokens: map<string, Json>, cfg: Externals.Config,
                                     parse: Externals.FragmentParser, username: string, password: string,
                                     signIn: Progress<string>)
    requires signIn == SignInRun(replies, cfg.appUri, username, password)
    requires signIn.step.Continue?
      && var rest := Skip(replies, signIn.used);
      && IdentityRun(signIn.step.value, rest, tokens, parse).step.Continue?
      && Next(Skip(rest, 2)).Answered? && Next(Skip(rest, 2)).response.status > 400
    ensures var rest := Skip(replies, signIn.used);
      LoginRun(replies, tokens, cfg, parse, username, password)
        == Attempt(Aborted(SecondaryExchange), tokens[Identity := Next(rest).response.body.json], signIn.used + 3)
  {
    SecondExchangeRejected(signIn.step.value, Skip(replies, signIn.used), tokens, parse);
  }

  /** In the token half, a second exchange answered above 400 ends it at that
      stage after three requests, with the code exchange's reply stored. */
  lemma SecondExchangeRejected(ref: string, replies: Replies, tokens: map<string, Json>, parse: Externals.FragmentParser)
    requires IdentityRun(ref, replies, tokens, parse).step.Continue?
    requires Next(Skip(replies, 2)).Answered? && Next(Skip(replies, 2)).response.status > 400
    ensures AuthenticateRun(ref, replies, tokens, parse)
      == Attempt(Aborted(SecondaryExchange), tokens[Identity := Next(replies).response.body.json], 3)
  {
  }

  /** A sign-in that reaches the app's URI, followed by two exchanges that
      carry their tokens and key sets that can be fetched, logs in. */
  lemma GoodRepliesLogIn(replies: Replies, tokens: map<string, Json>, cfg: Externals.Config,
                         parse: Externals.FragmentParser, username: string, password: string,
                         signIn: Progress<string>)
    requires signIn == SignInRun(replies, cfg.appUri, username, password)
    requires signIn.step.Continue? && Fragment(signIn.step.value, parse).Ok?
      && var rest := Skip(replies, signIn.used);
      && TokenStep(Next(rest), CodeExchange, "id_token").Continue?
      && KeyFetch(Next(Skip(rest, 1))).Ok?
      && TokenStep(Next(Skip(rest, 2)), SecondaryExchange, "access_token").Continue?
      && TokenStep(Next(Skip(rest, 2)), SecondaryExchange, "access_token").value.JStr?
      && KeyFetch(Next(Skip(rest, 3))).Ok?
    ensures LoginRun(replies, tokens, cfg, parse, username, password).result == LoggedIn
  {
  }

  /** A token half that logs in has sent four requests and stored exactly
      the JSON of its two exchange replies, both past their status checks. */
  lemma AuthenticateStoresExchangeReplies(ref: string, replies: Replies, tokens: map<string, Json>,
                                          parse: Externals.FragmentParser)
    requires AuthenticateRun(ref, replies, tokens, parse).result == LoggedIn
    ensures var code := Next(replies);
      var second := Next(Skip(replies, 2));
      var run := AuthenticateRun(ref, replies, tokens, parse);
      && code.Answered? && code.response.status == 200 && code.response.body.JsonBody?
      && second.Answered? && second.response.status <= 400 && second.response.body.JsonBody?
      && run.tokens == tokens[Identity := code.response.body.json][Vwg := second.response.body.json]
      && run.used == 4
      && Bearer(run.tokens, Vwg).Ok?
  {
    var identity := IdentityRun(ref, replies, tokens, parse);
    assert identity.step.Continue? && identity.used == 2;
    var second := Next(Skip(replies, 2));
    assert TokenStep(second, SecondaryExchange, "access_token").Continue?;
  }

  /** After a sign-in that stopped with anything but success, the token half
      that logs in stores the JSON of its two exchange replies. */
  lemma ConcludeStoresExchangeReplies(signIn: Progress<string>, replies: Replies, tokens: map<string, Json>,
                                      parse: Externals.FragmentParser)
    requires signIn.step.Stop? ==> !signIn.step.result.LoggedIn?
    requires Conclude(signIn, replies, tokens, parse).result == LoggedIn
    ensures var code := TokenReply(Next(Skip(replies, signIn.used)), CodeExchange);
      var second := TokenReply(Next(Skip(replies, signIn.used + 2)), SecondaryExchange);
      var run := Conclude(signIn, replies, tokens, parse);
      && signIn.step.Continue? && code.Some? && second.Some?
      && run.tokens == tokens[Identity := code.value][Vwg := second.value]
      && run.used == signIn.used + 4
      && Bearer(run.tokens, Vwg).Ok?
  {
    AuthenticateStoresExchangeReplies(signIn.step.value, Skip(replies, signIn.used), tokens, parse);
  }

  /** A successful login stores exactly the JSON of the two exchange replies
      (each past its status check, see `TokenReply`) that follow the sign-in,
      the code exchange's under the identity authority and the second
      exchange's under the vehicle-API authority; four requests follow the
      sign-in. */
  lemma LoginStoresExchangeReplies(replies: Replies, tokens: map<string, Json>, cfg: Externals.Config,
                                   parse: Externals.FragmentParser, username: string, password: string, signIn: Progress<string>)
    requires signIn == SignInRun(replies, cfg.appUri, username, password)
    requires LoginRun(replies, tokens, cfg, parse, username, password).result == LoggedIn
    ensures var code := TokenReply(Next(Skip(replies, signIn.used)), CodeExchange);
      var second := TokenReply(Next(Skip(replies, signIn.used + 2)), SecondaryExchange);
      var run := LoginRun(replies, tokens, cfg, parse, username, password);
      && signIn.step.Continue? && code.Some? && second.Some?
      && run.tokens == tokens[Identity := code.value][Vwg := second.value]
      && run.used == signIn.used + 4
      && Bearer(run.tokens, Vwg).Ok?
  {
    ConcludeStoresExchangeReplies(signIn, replies, tokens, parse);
  }

  /** A login that gives up has sent exactly the four sign-in requests and
      ten redirect GETs, and touched no token. */
  lemma GivingUpTakesFourteenRequests(replies: Replies, tokens: map<string, Json>, cfg: Externals.Config,
                                      parse: Externals.FragmentParser, username: string, password: string)
    requires LoginRun(replies, tokens, cfg, parse, username, password).result == GaveUp
    ensures LoginRun(replies, tokens, cfg, parse, username, password) == Attempt(GaveUp, tokens, 4 + MaxDepth)
  {
    var signIn := SignInRun(replies, cfg.appUri, username, password);
    if signIn.step.Continue? {
      var rest := AuthenticateRun(signIn.step.value, Skip(replies, signIn.used), tokens, parse);
      AuthenticateNeverGivesUp(signIn.step.value, Skip(replies, signIn.used), tokens, parse);
    }
  }

  /** The token half never runs into the redirect limit. */
  lemma AuthenticateNeverGivesUp(ref: string, replies: Replies, tokens: map<string, Json>, parse: Externals.FragmentParser)
    ensures !AuthenticateRun(ref, replies, tokens, parse).result.GaveUp?
  {
  }
}
