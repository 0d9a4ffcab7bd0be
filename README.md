# Skoda Connect session model

A Dafny model of the `Connection` class of the Skoda Connect client
(`skodaconnect/connection.py`). The class logs a user in to the Skoda / VW
Group identity service through a browser-like OpenID Connect dialogue. It
keeps two token dictionaries, one per authority: `identity` and the
vehicle-API authority `vwg`. It renews them shortly before they expire, and
it sends authenticated GET and POST requests to the vehicle services.

The connection is modelled as a class `Connection.Connection` whose fields are
the session state the Python object keeps:

- the request headers with the bearer token;
- the sign-in headers;
- the token dictionaries;
- the logged-in flag;
- its own cookie jar (`_jarCookie`);
- the two base URLs of the vehicle's home region;
- the vehicles.

Its methods change these fields as the Python methods do.

The HTTP client (an aiohttp session) is an oracle, `Http.Session`:
- the replies of the remote services are a fixed script. `pending` holds it
  together with a cursor that moves on by one per request: `Http.Next` is the
  reply the next request gets, and `Http.Skip` moves the cursor on;
- a request sent past the end of the script fails as a transport error would;
- every request is appended to `log`, together with the session cookies it
  carried and the reply it got.

The methods that run a multi-request exchange are proved equal to a pure
function of the script. Each such method's `ensures` says that its result,
the tokens it leaves and the number of replies it consumes are the ones that
function gives for the replies waiting when it is called:
- `RefreshTokens` equals `TokenRefresh.Refresh`;
- `FollowRedirects` equals `LoginFlow.Follow`;
- `Credentials`, `SignIn`, `IdentityTokens`, `VehicleTokens`, `Authenticate`
  and `Login` equal `LoginAttempt.CredentialsRun`, `SignInRun`,
  `IdentityRun`, `VehicleRun`, `AuthenticateRun` and `LoginRun`;
- `BuildKeyTable` equals `Tokens.KeyTable`.

The single-request methods state their request and their outcome through step
functions:
- `Request` and `Get` through `Requests.RequestResult`, `Requests.GetResult`
  and `Requests.JarAfter`;
- `VerifyTokens` through `Tokens.Verdict`;
- the `get*` collectors through `Fetchers.Classify`;
- the login steps through `LoginFlow.DiscoveryStep`, `FormStep`,
  `PasswordStep` and `TokenStep`.

Properties relating several calls, or naming a particular outcome, are lemmas
about these functions. For example, `LoginAttempt.GoodRepliesLogIn` says
which replies make a login succeed, and `TokenRefresh.RefreshMerges` says how
a refresh combines the stored tokens with the replies.

Python's exceptions are values of `Values.Exc`, and operations that may raise
return `Values.Result`. `_login`'s three return values are refined into the
four outcomes of `LoginFlow.LoginResult`:
- a rejected status at a named stage (Python returns `""`);
- the redirect limit reached (`False`);
- an exception (`False`, flag cleared);
- success (`True`).

`LoginFlow.Returned` maps each outcome back to the Python value.

Source behaviours that are easy to misread, modelled as the code has them:
- Key verification can raise past its own boundary: the key-set fetch and its
  `json()` are outside the `try`.
- Cookies are taken into `_jarCookie` only after `raise_for_status` has
  passed, not after every call.
- A status of 400 or more raises in `_request`, and `get` turns it into
  `{'status': s}`. Every other status except 204 has its body parsed as JSON:
  the `else` branch at line 271 cannot run.
- A rejected status during login returns `""` and leaves the logged-in flag
  as it was. Only an exception clears the flag.
- The redirect chase gives up after the 10th GET without looking at that GET's
  `Location`.
- A token that is missing, or whose expiry cannot be decoded, makes the expiry
  check raise rather than answer false.
- The token dictionaries are one dictionary keyed by authority, holding the
  parsed JSON replies, not two fixed records. This is what the code stores.
- The second token exchange of the login accepts any status up to 400.
- The "car is moving" branch of the position fetcher (lines 501-507) tests `status == 204`. A real HTTP 204 never produces that field: `_request` reports a 204 as `status_code`, and `get` adds `status` only for a status of 400 or more. Such a reply therefore ends as the error marker (`Fetchers.NoContentPositionUnknown`).

## Model

| member | source | states |
|---|---|---|
| Connection.Connection.constructor | skodaconnect/connection.py:48-71 | Fresh connection: constant header copies, no tokens, not logged in, empty own jar, both base URLs at the session base, no vehicles |
| Connection.Connection.Vehicle | skodaconnect/connection.py:737-745 | The vehicle returned is the first in the list whose id equals the VIN after lower-casing: it matches and no earlier one does. None is returned only when no vehicle matches |
| Vehicles.FindVehicle | skodaconnect/connection.py:739-745 | Returns the position of the first matching vehicle: it matches and no earlier one does; none exactly when no vehicle matches |
| Vehicles.FindVehicleIgnoresCase | skodaconnect/connection.py:743 | Asking with the VIN in any case finds the same vehicle as asking with it lower-cased |
| Vehicles.FindVehicleSameKey | skodaconnect/connection.py:743 | Two VINs equal after lower-casing select the same vehicle |
| Urls.SubstituteVin | skodaconnect/connection.py:303 | The path is the reference split at every `$vin` and rejoined with the VIN |
| Urls.MakeUrlRoutes | skodaconnect/connection.py:302-310 | An absolute path (containing `://`) is returned as is; a path naming `rolesrights` is joined to the SPIN base; any other path is joined to the home-region base |
| Urls.MakeUrl | skodaconnect/connection.py:302-310 | `_make_url`: the reference with `$vin` replaced by the VIN; an absolute result is kept, a `rolesrights` path is joined to the SPIN base, any other path to the home-region base (properties in `MakeUrlRoutes`) |
| Urls.SubstituteVinAbsent | skodaconnect/connection.py:303 | A reference without `$vin` is unchanged by the substitution |
| Urls.DefaultVinDeletes | skodaconnect/connection.py:302-303 | With the default empty VIN, a `$vin` is deleted and the text around it is concatenated |
| Urls.SpinBaseTruncates | skodaconnect/connection.py:371 | The SPIN base is a prefix of `baseUri` containing no `/api`. When `baseUri` contains `/api`, the base is followed by it; otherwise the base is all of `baseUri` |
| Urls.SpinBase | skodaconnect/connection.py:371 | The SPIN base: `baseUri` cut before its first `/api` (properties in `SpinBaseTruncates`) |
| Urls.AuthBaseDerivation | skodaconnect/connection.py:370 | Outside the default region, the home-region base is the SPIN base with every `mal-` turned into `fal-`, and it contains no `mal-` |
| Urls.AuthBase | skodaconnect/connection.py:370 | The home-region base: a fixed host for the default region, else the SPIN base with every `mal-` turned into `fal-` (properties in `AuthBaseDerivation`) |
| Urls.MalReplacedEverywhere | skodaconnect/connection.py:370 | Replacing `mal-` by `fal-` leaves no `mal-` in the text |
| Connection.RegionContent | skodaconnect/connection.py:370-372 | A home region is found only in a dictionary that has a `homeRegion` key |
| Connection.RegionNeedsDocument | skodaconnect/connection.py:369-375 | An error status returned by `get` never yields a home region |
| Connection.Connection.GetHomeRegion | skodaconnect/connection.py:366-376 | A missing token returns nothing and sends nothing. Otherwise exactly one GET goes to the home-region URL with the VIN substituted, carrying the vehicle-API bearer and the own jar. The contract states the new headers, own jar, session jar, replies and log. On success the SPIN base and the home-region base are derived from `baseUri` and the flag is kept; any failure clears the flag and leaves both bases |
| Tokens.Field | skodaconnect/connection.py:614-615 | The token lookup succeeds exactly when the authority holds a dictionary with that key. Otherwise it raises a lookup or type error |
| Tokens.Bearer | skodaconnect/connection.py:608 | The header is `Bearer ` followed by the access token, which must be a string |
| Connection.Connection.SetToken | skodaconnect/connection.py:606-609 | On success only `Authorization` changes, and it becomes the bearer value; a missing or malformed token raises and changes nothing |
| Tokens.RefreshWithinMinute | skodaconnect/connection.py:618-635 | A refresh happens exactly when the earlier of the two expiries is at most 60 seconds away. The "expired" branch is taken exactly when it has passed |
| Tokens.TokenFreshness | skodaconnect/connection.py:618-635 | The two tests of `validate_tokens` in order: expired when either expiry has been reached, expiring soon when either is within 60 seconds, fresh otherwise (properties in `RefreshWithinMinute`) |
| Connection.ExpOf | skodaconnect/connection.py:616-619 | An expiry is obtained exactly for a string token whose `exp` claim decodes to an integer |
| Connection.Expiries | skodaconnect/connection.py:614-619 | Both tokens are looked up, then both are decoded. The pair is the identity id token's expiry and the vehicle-API access token's expiry |
| Connection.MissingTokenRaises | skodaconnect/connection.py:614-615 | A missing authority makes the expiry check raise a lookup error rather than return false |
| Connection.Connection.ValidateTokens | skodaconnect/connection.py:612-638 | A raise from the lookup or decoding is passed on with nothing changed. Fresh tokens give true with nothing sent. Otherwise the result, the tokens and the replies consumed are those of one refresh |
| Tokens.MergeKeys | skodaconnect/connection.py:704-705 | Every key of the reply overwrites the stored one, every other stored key is kept, and the result is the right-biased union |
| TokenRefresh.KeyFetch | skodaconnect/connection.py:643-644 | The key-set fetch succeeds exactly when the reply arrives with a JSON body |
| TokenRefresh.GrantOf | skodaconnect/connection.py:699-708 | An exchange is granted exactly when the reply is a 200 JSON dictionary holding the token to verify and the key fetch does not raise. The granted fields are the reply's |
| TokenRefresh.FirstRefusalKeepsTokens | skodaconnect/connection.py:699-708 | A first reply that is not a 200 fails the refresh and changes no token |
| TokenRefresh.RefreshMerges | skodaconnect/connection.py:699-727 | A successful refresh merges each reply into its authority key by key. Reply keys overwrite, other keys stay, and no authority is added or removed |
| TokenRefresh.SecondRefusalKeepsFirstMerge | skodaconnect/connection.py:710-731 | When the second exchange fails, the refresh fails but the identity merge stays applied |
| TokenRefresh.SecondExchangeUsesNewIdToken | skodaconnect/connection.py:710-714 | The second exchange sends the id token brought by the first reply |
| TokenRefresh.Refresh | skodaconnect/connection.py:676-735 | `refresh_tokens` against the replies: no refresh token means false with nothing sent; each exchange is judged by `GrantOf`; the first grant merges into the identity tokens, the second into the vehicle-API tokens, and only both grants, with a vehicle-API dictionary to merge into, give true. Also gives the tokens afterwards and the requests sent (properties in `FirstRefusalKeepsTokens`, `RefreshMerges`, `SecondRefusalKeepsFirstMerge`) |
| Connection.Connection.RequestGrant | skodaconnect/connection.py:694-708 | One exchange of the refresh posts to the given URL with the refresh headers. Its outcome and the number of requests it uses are given by `GrantOf`. The session jar afterwards has absorbed the cookies of each reply it consumed |
| Connection.Connection.RefreshTokens | skodaconnect/connection.py:676-735 | The result, the new tokens and the replies consumed equal the specification `Refresh`. The first request posts the stored refresh token; the third posts the id token as it stands after the first merge |
| Tokens.Entry | skodaconnect/connection.py:661-663 | A key is admitted exactly when it has a `kid` and a `kty` of `RSA`, the library loads it and the kid can be a dictionary key; it is then filed under that kid. A key with a `kid` and a `kty` other than `RSA` is skipped, and only such a key is skipped; any other key raises |
| Tokens.BuildKeyTable | skodaconnect/connection.py:659-663 | The loop builds exactly the table `KeyTable` describes, or fails as it does |
| Tokens.KeyTableBrokenStays | skodaconnect/connection.py:659-663 | Once an entry raises, no later entry restores the table |
| Tokens.KeyTable | skodaconnect/connection.py:659-663 | The table the key loop builds, entries in order: RSA keys filed under their `kid`, other key types skipped, no table once an entry raises (properties in `KeyTableSound`, `KeyTableComplete`, `KeyTableDefined`, `KeyTableBrokenStays`) |
| Tokens.KeyTableSound | skodaconnect/connection.py:659-663 | Every key in the table is an admitted RSA key of the set, filed under its own kid |
| Tokens.KeyTableComplete | skodaconnect/connection.py:659-663 | Every admissible RSA key of the set has its kid in the table |
| Tokens.KeyTableDefined | skodaconnect/connection.py:659-663 | The table exists exactly when no entry of the set raises |
| Tokens.VerdictKeySelection | skodaconnect/connection.py:665-671 | A token is accepted only through an RSA key filed under the token's kid, prefixed with `VWGMBB01DELIV1.` for the vehicle-API authority, whose signature and audience check passes |
| Tokens.VerdictNeedsKeySet | skodaconnect/connection.py:658-674 | Without a `keys` list nothing verifies |
| Tokens.Verdict | skodaconnect/connection.py:658-674 | The `try` block of `verify_tokens`: true exactly when the key set has a `keys` list that builds a table, the token's header has a kid, the (prefixed) kid is in the table, and the signature and audience check passes with that key; any exception gives false (properties in `VerdictKeySelection`, `VerdictNeedsKeySet`) |
| Connection.Connection.VerifyTokens | skodaconnect/connection.py:640-674 | An unknown authority gives false with no request. Otherwise one GET fetches the authority's keys; it raises exactly when that fetch fails, and the answer is otherwise the verdict |
| Requests.ResponseValue | skodaconnect/connection.py:266-279 | A 204 yields `{'status_code': 204}`, plus the rate-limit field exactly when the header is present. Any other status has its JSON parsed. The rate-limit header is copied into a dictionary result. A body that is not JSON gives `{}`, and so does a JSON body that is not a dictionary when the header is present |
| Requests.ParsedForEveryStatus | skodaconnect/connection.py:267-272 | For every status other than 204, a JSON dictionary body comes back, with the rate-limit field added when the header is present |
| Requests.RequestResult | skodaconnect/connection.py:250-258 | `_request` raises exactly on a transport failure or a status of 400 or more, with the status in the error. Otherwise it returns the classified body |
| Requests.JarAfter | skodaconnect/connection.py:258-264 | A rejected or failed reply leaves the jar alone. Otherwise the first reply's cookies replace the empty jar, and later ones update it key by key |
| Requests.GetResult | skodaconnect/connection.py:284-292 | `get` reports a status of 400 or more as `{'status': s}` and raises only on a transport failure |
| Connection.Connection.Request | skodaconnect/connection.py:247-282 | One request with the session headers and the own jar is sent. The result and the new jar follow `RequestResult` and `JarAfter` |
| Connection.Connection.Get | skodaconnect/connection.py:284-292 | One GET to the constructed URL returns `GetResult`, updates the jar, and clears the flag exactly on a 401 |
| Connection.Connection.Post | skodaconnect/connection.py:294-299 | One POST to the constructed URL, with the session headers and the own jar. An error status is not caught but raised. The replies, the log, the session jar and the own jar after the call are stated |
| Connection.Connection.AuthorizedGet | skodaconnect/connection.py:381-382 | `set_token` then `get`. A missing token raises before anything is sent, and no state changes. Otherwise the one GET carries the new bearer header, and the headers, own jar, session jar, replies, log and flag after the call are stated |
| Fetchers.StatusOrUnknown | skodaconnect/connection.py:385-390 | A truthy `status` hands the response back; anything else becomes `{'error': 'unknown'}` |
| Fetchers.NonDictionaryUnknown | skodaconnect/connection.py:383-393 | Every fetcher answers a response that is not a dictionary with the error marker |
| Fetchers.PayloadWrapped | skodaconnect/connection.py:428-431 | A present, truthy payload is returned under the fetcher's own key |
| Fetchers.ErrorStatusReported | skodaconnect/connection.py:385-387 | An error status from `get` reaches the caller of every fetcher except the stored-vehicle-data one |
| Fetchers.PositionWhileMoving | skodaconnect/connection.py:501-507 | A 204 `status` without a position means the car is moving, with 15 requests left |
| Fetchers.NoContentPositionUnknown | skodaconnect/connection.py:267-268 | An actual HTTP 204 to the position GET reaches the fetcher as `{'status_code': 204}` and ends as `{'error': 'unknown'}`, not as the moving marker |
| Fetchers.Classify | skodaconnect/connection.py:378-601 | What each `get*` fetcher returns for `get`'s response: the stored-vehicle-data fetcher uses `StatusReport`; the others wrap a truthy payload under their key, report a moving car for a 204 position status, pass a truthy `status` on, and give `{'error': 'unknown'}` otherwise (properties in the lemmas after it) |
| Fetchers.StatusProbe | skodaconnect/connection.py:451 | The guard can pass only for a dictionary holding `StoredVehicleDataResponse` |
| Fetchers.StatusReportHidesErrorStatus | skodaconnect/connection.py:451-464 | For an error status the guard indexes `{}` and raises, so the stored-vehicle-data fetcher returns the error marker and never the status |
| Fetchers.StatusBranchNeedsStoredData | skodaconnect/connection.py:451-461 | Without stored data, this fetcher always ends with the error marker |
| Fetchers.StatusReport | skodaconnect/connection.py:443-465 | The stored-vehicle-data fetcher: the stored data with its flattened table when the probe passes, the response when only `status` is truthy, the error marker otherwise or when anything raises (properties in `StatusReportHidesErrorStatus`, `StatusBranchNeedsStoredData`) |
| Fetchers.Elements | skodaconnect/connection.py:454 | Iterating a list yields its items. Iterating an empty dictionary or string yields nothing. Every other value raises |
| Fetchers.FlattenDefined | skodaconnect/connection.py:454 | The flattening succeeds exactly when every entry is a dictionary with a string `id`. Python also takes number, boolean and null ids; see Left out |
| Fetchers.FlattenKeys | skodaconnect/connection.py:454 | The keys of the table are exactly the ids of the entries |
| Fetchers.FlattenLastWins | skodaconnect/connection.py:454 | An id holds the value of its last entry: the entry itself when it has a `value`, else `''` |
| Fetchers.Flatten | skodaconnect/connection.py:454 | The table `dict([(e['id'], …)])` builds: entries in order, a later id overwriting an earlier one, each id mapped to its entry when it has a `value`, else `''` (properties in `FlattenDefined`, `FlattenKeys`, `FlattenLastWins`) |
| Fetchers.FindCar | skodaconnect/connection.py:407 | The car found is the first carrying the VIN. The search raises when an earlier car has no VIN or no car matches |
| Fetchers.RealCarFound | skodaconnect/connection.py:405-408 | The profile reports the first car carrying the VIN, provided every earlier car has a VIN |
| Fetchers.FindCarStopsAt | skodaconnect/connection.py:407 | The search succeeds when a matching car is preceded only by cars with a VIN |
| Fetchers.RealCarReport | skodaconnect/connection.py:396-418 | The customer-profile fetcher: the first car carrying the VIN under `carData`, the response when `realCars` is falsy but `status` truthy, the error marker otherwise (properties in `RealCarFound`, `FindCarStopsAt`) |
| Connection.Subject | skodaconnect/connection.py:399-400 | A customer id is obtained only when the identity access token is usable as a bearer token |
| Connection.Connection.Fetch | skodaconnect/connection.py:378-394 | A vehicle-API fetcher sends one GET to its own path with the VIN, carrying the vehicle-API bearer and the own jar. It returns the classification of `get`'s result, or the error marker on a missing token or transport failure. The headers, own jar, session jar, replies and log after the call are stated; a missing token changes nothing. The flag is cleared exactly on a 401 |
| Connection.Connection.FetchRealCarData | skodaconnect/connection.py:396-418 | One GET to the customer profile of the token's subject, carrying the identity bearer in `Authorization` and the own jar. It returns the car report, or the error marker when the token, the subject or the transport fails. The headers, own jar, session jar, replies and log after the call are stated; without a subject nothing changes |
| LoginFlow.Returned | skodaconnect/connection.py:237-244 | Only a successful login returns a truthy value. Exactly the rejected-status outcomes return `""` |
| LoginFlow.Rejected | skodaconnect/connection.py:225-227 | A transport failure raises. The second exchange is rejected exactly above 400; every other checked stage is rejected exactly when the status is not 200 |
| LoginFlow.DiscoveryStep | skodaconnect/connection.py:99-106 | Discovery aborts exactly on a non-200 reply. It continues only with a 200 whose document names the endpoint and the issuer |
| LoginFlow.FormStep | skodaconnect/connection.py:117-128 | A form page aborts exactly on a non-200 reply. It continues with the hidden fields, the credential filled in, and the issuer followed by the form action |
| LoginFlow.FormPost | skodaconnect/connection.py:124-128 | The posted fields are the form's hidden inputs plus the credential, and the URL is the issuer followed by the action |
| LoginFlow.PasswordStep | skodaconnect/connection.py:153-162 | The chase starts at the reply's `Location`. Without one, `ref` is never bound and the login fails |
| LoginFlow.Endpoints | skodaconnect/connection.py:104-106 | Succeeds exactly for a JSON document with a string `authorization_endpoint` and an `issuer` |
| LoginFlow.Fragment | skodaconnect/connection.py:181-183 | Succeeds exactly when the fragment holds `code`, `access_token` and `id_token`. It returns the code and the id token |
| LoginFlow.TokenReply | skodaconnect/connection.py:200-201 | The reply stored as the authority's tokens is the JSON of a reply that passed the status check |
| LoginFlow.TokenStep | skodaconnect/connection.py:198-202 | A token exchange aborts exactly on a rejected status. It continues exactly when the stored reply holds the named token, and hands that token on |
| LoginFlow.FollowBounded | skodaconnect/connection.py:160-174 | The chase issues at most 10 GETs. It reaches the app's URI only within the first 9 |
| LoginFlow.FollowExhausted | skodaconnect/connection.py:160-174 | The chase gives up exactly when all 10 GETs answer with a `Location` and none of the first 9 points at the app. The 10th `Location` is never examined |
| LoginFlow.Follow | skodaconnect/connection.py:159-178 | The redirect chase against the replies: it stops at a URI starting with the app's URI, or after a GET answered without `Location`, and gives up after its last allowed GET; it gives the URI reached and the GETs sent (properties in `FollowBounded`, `FollowExhausted`) |
| LoginAttempt.CredentialsRun | skodaconnect/connection.py:94-145 | Discovery, the authorization page and the e-mail form use one reply each. Reaching the password form uses exactly three |
| LoginAttempt.SignInRun | skodaconnect/connection.py:94-178 | The sign-in alone never logs in |
| LoginAttempt.IdentityRun | skodaconnect/connection.py:180-205 | Going on past the identity tokens uses exactly two replies: the code exchange and the key fetch for its id token |
| LoginAttempt.VehicleRunOutcomes | skodaconnect/connection.py:207-239 | The vehicle-API half never gives up. It aborts only at the second exchange, after one reply above 400, with the tokens unchanged. It logs in only after two requests, the first answered with at most 400, leaving a bearer token under the vehicle-API authority |
| LoginAttempt.VehicleRun | skodaconnect/connection.py:207-244 | The second exchange, the fetch of its key set and the bearer header: the outcome, the tokens with the exchange reply stored, and the one or two requests sent (properties in `VehicleRunOutcomes`) |
| LoginAttempt.LoginComposes | skodaconnect/connection.py:94-244 | A login is its sign-in, followed by the token half on the replies left, when the sign-in reaches the app's URI. A sign-in that stops is the login's outcome, with the tokens untouched |
| LoginAttempt.LoginRun | skodaconnect/connection.py:77-244 | `_login` against the replies: `Conclude` applied to `SignInRun`; its outcome, the tokens afterwards and the requests sent (properties in `LoginComposes` and the lemmas after it) |
| LoginAttempt.RejectedAuthorizationAborts | skodaconnect/connection.py:120-123 | After a good discovery, a non-200 authorization page aborts at that stage after two requests, with no token touched |
| LoginAttempt.RejectedEmailAborts | skodaconnect/connection.py:137-140 | After a good authorization page, a non-200 e-mail form reply aborts at that stage after three requests, with no token touched |
| LoginAttempt.RejectedCodeExchangeAborts | skodaconnect/connection.py:192-199 | Once the chase has ended at a URI with a code, a non-200 code exchange aborts at that stage after one more request, with no token touched |
| LoginAttempt.RejectedSecondExchangeAborts | skodaconnect/connection.py:213-227 | Once the identity tokens are in, a second exchange above 400 aborts at that stage. The code exchange's reply stays stored |
| LoginAttempt.SecondExchangeRejected | skodaconnect/connection.py:201-227 | In the token half, a second exchange above 400 ends it at that stage after three requests, with the code exchange's reply stored under the identity authority |
| LoginAttempt.GoodRepliesLogIn | skodaconnect/connection.py:180-239 | A sign-in that reaches the app's URI with a code, followed by two exchanges carrying their tokens and key sets that can be fetched, logs in |
| LoginAttempt.AuthenticateStoresExchangeReplies | skodaconnect/connection.py:198-239 | A token half that logs in sends four requests. It stores exactly the JSON of the code exchange (a 200) under the identity authority and of the second exchange (at most 400) under the vehicle-API authority |
| LoginAttempt.ConcludeStoresExchangeReplies | skodaconnect/connection.py:198-239 | The same for a concluded sign-in: a success stores the JSON of the two exchange replies that follow the sign-in |
| LoginAttempt.Conclude | skodaconnect/connection.py:77-244 | A sign-in that stopped is the login's outcome with the tokens untouched; one that reached the app's URI goes on with `AuthenticateRun` on the replies it left (properties in `ConcludeStoresExchangeReplies`) |
| LoginAttempt.LoginStoresExchangeReplies | skodaconnect/connection.py:198-239 | A successful login stores exactly the JSON of the two exchange replies that follow the sign-in, each past its status check. Exactly four requests follow the sign-in |
| LoginAttempt.GivingUpTakesFourteenRequests | skodaconnect/connection.py:160-174 | A login that gives up has sent exactly four sign-in requests and ten redirect GETs, and touched no token |
| LoginAttempt.AuthenticateNeverGivesUp | skodaconnect/connection.py:180-244 | The token half never runs into the redirect limit |
| LoginAttempt.FlagAfter | skodaconnect/connection.py:237-244 | The logged-in flag after a login: set by success, cleared by an exception, kept on a rejected status or the redirect limit |
| LoginAttempt.AuthenticateRun | skodaconnect/connection.py:180-244 | The token half: `IdentityRun`, then `VehicleRun` on the replies it left when it goes on (properties in `AuthenticateStoresExchangeReplies`, `AuthenticateNeverGivesUp`) |
| Connection.Connection.Discover | skodaconnect/connection.py:79-106 | Fresh copies of both header sets, an empty session jar, then one GET of the discovery document, judged by `DiscoveryStep`. The session jar afterwards holds only that reply's cookies |
| Connection.OpeningKept | skodaconnect/connection.py:79-106 | Requests sent after the opening of a login leave the discovery GET and the headers of the request after it as they were |
| Connection.Connection.OpenAuthorization | skodaconnect/connection.py:108-133 | One GET of the authorization endpoint with the nonce and fixed parameters. Only when the form is read do the sign-in headers get the endpoint as `Referer` and the issuer as `Origin` |
| Connection.Connection.SubmitEmail | skodaconnect/connection.py:130-150 | One POST of the e-mail form. Only when the password form is read does the e-mail form's URL become the `Referer` |
| Connection.Connection.SubmitPassword | skodaconnect/connection.py:147-158 | One POST of the password form without following redirects, judged by `PasswordStep` |
| Connection.Connection.FollowRedirects | skodaconnect/connection.py:159-178 | The chase equals its specification `Follow`. It consumes exactly as many replies as GETs it sends, each a GET that does not follow redirects |
| Connection.Connection.Credentials | skodaconnect/connection.py:94-145 | The outcome and the replies consumed equal `CredentialsRun`. The log opens as `Opening` describes: the discovery GET carries no headers of its own and an empty session jar, and once discovery succeeds the next request carries the reset sign-in headers. Discovery aborts exactly on its non-200. Any other abort is a non-200 at the authorization or e-mail step, seen in the last reply |
| Connection.Connection.SignIn | skodaconnect/connection.py:94-178 | The outcome and the replies consumed equal `SignInRun`. The log opens as `Opening` describes (empty session jar, then the reset sign-in headers). A stop leaves the transcript `Transcript` describes: a rejection is the last reply, and giving up follows the password with a full chase of plain GETs |
| Connection.Connection.ExchangeCode | skodaconnect/connection.py:185-201 | Posts the code and id token. A reply past the status check is stored as the identity tokens before its id token is looked up |
| Connection.Connection.ExchangeIdToken | skodaconnect/connection.py:207-230 | Posts the id token to the vehicle-API authority. A reply past the status check is stored as its tokens before the access token is looked up |
| Connection.Connection.IdentityTokens | skodaconnect/connection.py:180-205 | The outcome, the tokens and the replies consumed equal `IdentityRun`. A rejected code exchange aborts with the tokens unchanged. On success the identity authority is added |
| Connection.Connection.VehicleTokens | skodaconnect/connection.py:207-244 | The outcome, the tokens, the replies consumed and the flag equal `VehicleRun` and `FlagAfter`. Only here is the bearer header set and the flag raised. A reply above 400 aborts with the flag kept; an exception clears it |
| Connection.Connection.Authenticate | skodaconnect/connection.py:180-244 | The outcome, the tokens, the replies consumed and the flag equal `AuthenticateRun` and `FlagAfter`. It never gives up, and it aborts only at the two exchanges. The log shows the transcript of its outcome |
| Connection.Connection.Login | skodaconnect/connection.py:77-244 | The outcome, the tokens, the replies consumed and the flag equal `LoginRun` and `FlagAfter`, on every outcome. The log opens as `Opening` describes: cookies cleared before the discovery GET, and the reset sign-in headers on the request after it. Success sets `Authorization` to the vehicle-API bearer. Discovery aborts exactly on its non-200. The log shows the transcript of the outcome |

## Left out

- Actual network I/O, timeouts and the async machinery are replaced by the oracle session; each `await` is one synchronous call into it.
- HTML parsing with BeautifulSoup: a page is modelled as its forms by `id`, each with its hidden inputs and its `action`.
- JWT decoding, key loading and RS256 signature and audience checking are uninterpreted functions of `Externals.Jwt`.
- `urljoin` and `parse_qs`/`urlparse` are uninterpreted functions of `Externals.Urllib`.
- `getNonce` hashes the wall clock, so the nonce is a parameter of `Login`.
- The clock is the `now` parameter of `ValidateTokens`, in whole seconds. Sub-second differences between `datetime.now()` and the token expiries are not modelled.
- The constants of `skodaconnect/const.py` are the fields of `Externals.Config`: `skodaconnect/const.py` is not part of this model.
- Logging.
- `main()`.
- `update()`, `discover()` and the vehicle class: the vehicle class is not part of this model, so a vehicle is represented by its unique id.
- The `vehicles` and `logged_in` properties, `_state`, `_session_first_update`, `_vin`, the guest language and the unused helpers `extract_csrf` and `extract_guest_language_id`.
- Header names are matched exactly; the case-insensitive lookup of aiohttp's header dictionaries is not modelled.
- Cookies are a name-to-value map, not cookie objects with attributes.
- JSON numbers are integers; floating-point values are not modelled.
- In the key table, Python's equality of `1` and `True` as dictionary keys is not modelled.
- `re.sub` with the pattern `\$vin` is modelled as a literal replacement of `$vin`; escapes in the VIN itself are not interpreted.
- Lower-casing covers ASCII letters only.
- The two branches of `post` (with and without data) both send the data given, an empty dictionary when there is none.
- Connection.Connection.FollowRedirects: states the verb and redirect flag of every GET but not its URL (each goes to the previous reply's `Location`, which `Follow` encodes).
- Fetchers.FlattenDefined: requires every `id` to be a string. A list or dictionary id raises `TypeError` in the model, as it does in Python (unhashable). A number, boolean or null id also raises `TypeError` in the model, although Python's `dict()` at `skodaconnect/connection.py:454` accepts it as a key. For such a reply the stored-vehicle-data fetcher (`Fetchers.StatusReport`) returns `{'error': 'unknown'}` where the code returns a table keyed by that id. The reason is that the model's dictionaries, like JSON objects, have string keys only.
- Connection.Connection.ValidateTokens: in the refresh case it states the replies consumed but not the requests logged (`RefreshTokens` states those).
- Connection.Connection.RefreshTokens: does not state the session cookie jar after the call, nor the session cookies its requests carried. Each reply's cookies are absorbed by the session one request at a time; following them through the whole exchange is left out to keep the proof within bounds.
- Connection.Connection.ValidateTokens: does not state the session cookie jar after the call, nor the session cookies its requests carried. Each reply's cookies are absorbed by the session one request at a time; following them through the whole exchange is left out to keep the proof within bounds.
- Connection.Connection.FollowRedirects: does not state the session cookie jar after the call, nor the session cookies its requests carried. Each reply's cookies are absorbed by the session one request at a time; following them through the whole exchange is left out to keep the proof within bounds.
- Connection.Connection.Credentials: does not state the session cookie jar after the call, nor the session cookies carried by its requests after the discovery GET (whose jar is stated to be empty). Each reply's cookies are absorbed by the session one request at a time; following them through the whole exchange is left out to keep the proof within bounds.
- Connection.Connection.SignIn: does not state the session cookie jar after the call, nor the session cookies carried by its requests after the discovery GET (whose jar is stated to be empty). Each reply's cookies are absorbed by the session one request at a time; following them through the whole exchange is left out to keep the proof within bounds.
- Connection.Connection.IdentityTokens: does not state the session cookie jar after the call, nor the session cookies its requests carried. Each reply's cookies are absorbed by the session one request at a time; following them through the whole exchange is left out to keep the proof within bounds.
- Connection.Connection.VehicleTokens: does not state the session cookie jar after the call, nor the session cookies its requests carried. Each reply's cookies are absorbed by the session one request at a time; following them through the whole exchange is left out to keep the proof within bounds.
- Connection.Connection.Authenticate: does not state the session cookie jar after the call, nor the session cookies its requests carried. Each reply's cookies are absorbed by the session one request at a time; following them through the whole exchange is left out to keep the proof within bounds.
- Connection.Connection.Login: does not state the session cookie jar after the call, nor the session cookies carried by its requests after the discovery GET (whose jar is stated to be empty). Each reply's cookies are absorbed by the session one request at a time; following them through the whole exchange is left out to keep the proof within bounds.
- A login that is rejected after the headers were reset leaves the logged-in flag as it was, so a connection can report itself logged in while its headers carry no bearer token; this is the code's behaviour and is modelled as such.
