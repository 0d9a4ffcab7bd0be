/**
  `refresh_tokens` as a function of the stored tokens and the replies the
  services give: two exchanges in a row, each followed by a fetch of the
  signing keys for verification, and each merged key by key into its token
  dictionary. The verdict of the verification is never consulted, so the
  library that checks signatures does not appear here at all.
 */
module TokenRefresh {
  import opened Values
  import opened Http
  import opened Externals
  import opened Tokens

  const RefreshUrl := "https://tokenrefreshservice.apps.emea.vwapps.io/refreshTokens"
  const MbbTokenUrl := "https://mbboauth-1d.prd.ece.vwg-connect.com/mbbcoauth/mobile/oauth2/v1/token"

  /** The headers of both exchanges. */
  function RefreshHeaders(cfg: Config): map<string, string>
  {
    map["Accept-Encoding" := "gzip, deflate, br", "Connection" := "keep-alive",
        "Content-Type" := "application/x-www-form-urlencoded",
        "User-Agent" := cfg.userAgent, "X-App-Version" := cfg.appVersion,
        "X-App-Name" := cfg.appName, "X-Client-Id" := cfg.xClientId]
  }

  /** The key set a verification fetches: a transport failure or a body that is
      not JSON raises (outside the verification's own `try`). */
  function KeyFetch(x: Exchange): (r: Result<Json>)
    ensures r.Ok? <==> x.Answered? && x.response.body.JsonBody?
  {
    match x
    case Dropped => Raised(TransportError)
    case Answered(resp) => JsonOf(resp)
  }

  /** One exchange of the refresh: the token reply, then the key fetch of its
      verification. */
  datatype Grant = Granted(incoming: map<string, Json>) | Refused(used: nat)

  /** The reply must be a 200 whose JSON is a dictionary holding `field` (the
      token handed to verification), and the key fetch must not raise. */
  function GrantOf(reply: Exchange, keys: Exchange, field: string): (g: Grant)
    ensures g.Granted? <==> HasStatus(reply, 200) && reply.response.body.JsonBody?
                            && reply.response.body.json.JObj? && field in reply.response.body.json.fields
                            && KeyFetch(keys).Ok?
    ensures g.Granted? ==> g.incoming == reply.response.body.json.fields
    ensures g.Refused? ==> 1 <= g.used <= 2
  {
    if !HasStatus(reply, 200) then Refused(1)
    else
      match JsonOf(reply.response)
      case Raised(_) => Refused(1)
      case Ok(t) =>
        if !t.JObj? || field !in t.fields then Refused(1)
        else if KeyFetch(keys).Raised? then Refused(2)
        else Granted(t.fields)
  }

  /** How a refresh ends: its result, the tokens afterwards, and how many
      requests it sent. */
  datatype Run = Run(ok: bool, tokens: map<string, Json>, used: nat)

  function Refresh(tokens: map<string, Json>, replies: Replies): Run
  {
    match Field(tokens, Identity, "refresh_token")
    case Raised(_) => Run(false, tokens, 0)
    case Ok(_) =>
      match GrantOf(Next(replies), Next(Skip(replies, 1)), "id_token")
      case Refused(n) => Run(false, tokens, n)
      case Granted(first) =>
        var merged := tokens[Identity := JObj(tokens[Identity].fields + first)];
        match GrantOf(Next(Skip(replies, 2)), Next(Skip(replies, 3)), "access_token")
        case Refused(n) => Run(false, merged, 2 + n)
        case Granted(second) =>
          if Vwg in merged && merged[Vwg].JObj? then
            Run(true, merged[Vwg := JObj(merged[Vwg].fields + second)], 4)
          else Run(false, merged, 4)
  }

  /** The token data of the exchange `i` replies ahead, when it is a JSON dictionary. */
  function ReplyFields(replies: Replies, i: nat): map<string, Json>
  {
    var x := Next(Skip(replies, i));
    if x.Answered? && x.response.body.JsonBody? && x.response.body.json.JObj? then x.response.body.json.fields
    else map[]
  }

  /** A first exchange that is not a 200 changes no token. */
  lemma FirstRefusalKeepsTokens(tokens: map<string, Json>, replies: Replies)
    requires !HasStatus(Next(replies), 200)
    ensures !Refresh(tokens, replies).ok && Refresh(tokens, replies).tokens == tokens
  {
  }

  /** A successful refresh overwrites, in both dictionaries, every key the
      replies carry and keeps every key they do not; no authority is added or
      removed. */
  lemma RefreshMerges(tokens: map<string, Json>, replies: Replies)
    requires Refresh(tokens, replies).ok
    ensures var after := Refresh(tokens, replies).tokens;
      var first := ReplyFields(replies, 0);
      var second := ReplyFields(replies, 2);
      && after.Keys == tokens.Keys
      && Identity in tokens && tokens[Identity].JObj? && after[Identity].JObj?
      && Vwg in tokens && tokens[Vwg].JObj? && after[Vwg].JObj?
      && after[Identity].fields.Keys == tokens[Identity].fields.Keys + first.Keys
      && (forall k :: k in first ==> after[Identity].fields[k] == first[k])
      && (forall k :: k in tokens[Identity].fields && k !in first ==> after[Identity].fields[k] == tokens[Identity].fields[k])
      && after[Vwg].fields.Keys == tokens[Vwg].fields.Keys + second.Keys
      && (forall k :: k in second ==> after[Vwg].fields[k] == second[k])
      && (forall k :: k in tokens[Vwg].fields && k !in second ==> after[Vwg].fields[k] == tokens[Vwg].fields[k])
      && (forall a :: a in tokens && a != Identity && a != Vwg ==> after[a] == tokens[a])
  {
  }

  /** No rollback: when the first exchange succeeds and the second does not,
      the refresh fails but the identity merge stays applied. */
  lemma SecondRefusalKeepsFirstMerge(tokens: map<string, Json>, replies: Replies)
    requires Field(tokens, Identity, "refresh_token").Ok?
    requires GrantOf(Next(replies), Next(Skip(replies, 1)), "id_token").Granted?
    requires GrantOf(Next(Skip(replies, 2)), Next(Skip(replies, 3)), "access_token").Refused?
    ensures var run := Refresh(tokens, replies);
      && !run.ok
      && run.tokens == tokens[Identity := JObj(tokens[Identity].fields + ReplyFields(replies, 0))]
  {
  }

  /** The second exchange is sent the identity id token as it stands after
      the first merge: the one the first reply brought. */
  lemma SecondExchangeUsesNewIdToken(tokens: map<string, Json>, replies: Replies)
    requires Refresh(tokens, replies).used >= 3
    ensures var run := Refresh(tokens, replies);
      && Identity in run.tokens && run.tokens[Identity].JObj?
      && "id_token" in ReplyFields(replies, 0)
      && "id_token" in run.tokens[Identity].fields
      && run.tokens[Identity].fields["id_token"] == ReplyFields(replies, 0)["id_token"]
  {
  }
}
