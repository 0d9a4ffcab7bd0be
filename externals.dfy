/**
  What the connection takes from outside its own file: the constants of
  skodaconnect/const.py (that file is not part of this model, so their values
  are parameters) and the third-party functions it calls (URL joining and
  fragment parsing from urllib, JWT decoding and signature checking from PyJWT),
  each given as an uninterpreted total function.
 */
module Externals {
  import opened Values

  datatype Config = Config(
    appUri: string,                      // APP_URI, the app's custom redirect target
    clientId: string,                    // CLIENT_ID
    xClientId: string,                   // XCLIENT_ID
    appVersion: string,                  // XAPPVERSION
    appName: string,                     // XAPPNAME
    userAgent: string,                   // USER_AGENT
    sessionHeaders: map<string, string>, // HEADERS_SESSION
    authHeaders: map<string, string>,    // HEADERS_AUTH
    baseSession: string)                 // BASE_SESSION

  /** urllib's `parse_qs(urlparse(url).fragment).get(name)[0]` for a URL and a
      parameter name; None when that raises. */
  type FragmentParser = (string, string) -> Option<string>

  /** The URL functions of urllib. */
  datatype Urllib = Urllib(
    /** `urljoin(base, url)`. */
    urljoin: (string, string) -> string,
    fragmentParam: FragmentParser)

  /** The functions of PyJWT and its RSA algorithm the connection calls. */
  datatype Jwt = Jwt(
    /** `int(jwt.decode(token, verify=False).get('exp', None))`; None when that raises. */
    tokenExp: string -> Option<int>,
    /** `str(jwt.decode(token, verify=False).get('sub', None))`; None when decoding raises. */
    tokenSubject: string -> Option<string>,
    /** `jwt.get_unverified_header(token)['kid']`; None when that raises. */
    headerKid: string -> Option<Json>,
    /** `RSAAlgorithm.from_jwk(to_json(jwk))` succeeds. */
    keyLoads: Json -> bool,
    /** `jwt.decode(token, key=jwk, algorithms=['RS256'], audience=audience)` succeeds. */
    signatureValid: (string, Json, seq<string>) -> bool)
}
