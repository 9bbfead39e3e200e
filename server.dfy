/**
 * The request-authorisation decision of the gateway (server.go): the handler
 * picks the JWT path when the configured presence header carries a value and the
 * Basic path otherwise, and answers 200 or 401.
 *
 * The two globals `config` and `jwksJSON` are assigned once at start-up and only
 * read by the handler, so they are parameters here. The library calls whose code
 * is not part of this model (keyfunc.NewJSON, jwt.Parse with its signature, key-id
 * and exp/nbf checks, and the Basic header decoding of the request) are passed in
 * as the fields of a Libraries value.
 */
module Server {
  import opened Wrappers
  import opened GoStrings
  import opened NetHttp
  import opened JwtClaims

  /**
   * The settings decoded from appsettings.json. The handler reads audienceId,
   * issuer, authHeaderName, basicAuthUsername and basicAuthPassword; jwksUrl, port,
   * endpoints and enableTls are read only by the start-up code.
   */
  datatype Config = Config(
    audienceId: string,
    issuer: string,
    jwksUrl: string,
    authHeaderName: string,
    basicAuthUsername: string,
    basicAuthPassword: string,
    port: string,
    endpoints: seq<string>,
    enableTls: bool)

  /**
   * The library collaborators, as oracles. K is the key-set type keyfunc builds.
   *  - newJson:   keyfunc.NewJSON on the JWKS document; None stands for a non-nil error.
   *  - parse:     jwt.Parse of a token string with the key set's Keyfunc; None for a non-nil error.
   *  - basicAuth: (*http.Request).BasicAuth on the request headers; None when ok is false.
   *  - canonicalKey: textproto.CanonicalMIMEHeaderKey, which http.Header.Get applies to the name.
   */
  datatype Libraries<!K> = Libraries(
    newJson: string -> Option<K>,
    parse: (string, K) -> Option<Token>,
    basicAuth: Header -> Option<Credentials>,
    canonicalKey: string -> string)

  datatype Request = Request(header: Header)

  const BearerPrefix: string := "Bearer "
  const AuthorizationHeader: string := "Authorization"

  const Authorized: Response := Response(StatusOK, "Authorization successful")
  const NotAuthorized: Response := Response(StatusUnauthorized, "Not authorized")

  /** The step of validateJWT that turned the request down; each one has its own log line or return. */
  datatype Rejection =
    | MissingBearerPrefix
    | JwksLoadFailed
    | ParseFailed
    | ClaimsNotMap
    | WrongIssuer
    | WrongAudience
    | TokenNotValid

  datatype JwtOutcome = Accepted | Rejected(reason: Rejection)

  /**
   * The value of the Authorization header, as validateJWT reads it: the first value
   * the request carries under the header's canonical name, or "" when it has none.
   */
  function Authorization<K>(libs: Libraries<K>, r: Request): (a: string)
    ensures var name := libs.canonicalKey(AuthorizationHeader);
              name in r.header && |r.header[name]| > 0 ==> a == r.header[name][0]
    ensures var name := libs.canonicalKey(AuthorizationHeader);
              name !in r.header || r.header[name] == [] ==> a == ""
  {
    HeaderGet(r.header, libs.canonicalKey, AuthorizationHeader)
  }

  /**
   * The value of the configured presence header: the first value the request carries
   * under the configured name's canonical form, or "" when it has none. A non-empty
   * one selects the JWT path.
   */
  function Presence<K>(cfg: Config, libs: Libraries<K>, r: Request): (v: string)
    ensures var name := libs.canonicalKey(cfg.authHeaderName);
              name in r.header && |r.header[name]| > 0 ==> v == r.header[name][0]
    ensures var name := libs.canonicalKey(cfg.authHeaderName);
              name !in r.header || r.header[name] == [] ==> v == ""
  {
    HeaderGet(r.header, libs.canonicalKey, cfg.authHeaderName)
  }

  /** True when the claim set holds `name` as a JSON string equal to expected. */
  ghost predicate ClaimIs(entries: map<string, Value>, name: string, expected: string)
  {
    name in entries && entries[name] == Str(expected)
  }

  /**
   * What an acceptable token is, stated independently of the order of the checks:
   * the key set loads, the token parses under it, its claims are a claim map whose
   * `iss` and `aud` are the configured strings, and the library marks it valid.
   */
  ghost predicate TokenAccepted<K>(cfg: Config, jwksJson: string, libs: Libraries<K>, token: string)
  {
    match libs.newJson(jwksJson)
    case None => false
    case Some(keys) =>
      match libs.parse(token, keys)
      case None => false
      case Some(tok) =>
        && tok.valid
        && tok.claims.MapClaims?
        && ClaimIs(tok.claims.entries, "iss", cfg.issuer)
        && ClaimIs(tok.claims.entries, "aud", cfg.audienceId)
  }

  /** The Authorization value is "Bearer " followed by an acceptable token. */
  ghost predicate BearerAccepted<K>(cfg: Config, jwksJson: string, libs: Libraries<K>, auth: string)
  {
    exists token :: TokenAccepted(cfg, jwksJson, libs, token) && auth == BearerPrefix + token
  }

  /** The request carries decoded Basic credentials equal to the configured pair. */
  ghost predicate BasicAccepted<K>(cfg: Config, libs: Libraries<K>, r: Request)
  {
    libs.basicAuth(r.header) == Some(Credentials(cfg.basicAuthUsername, cfg.basicAuthPassword))
  }

  /** The token jwt.Parse returns for the stripped Authorization value, if the key set loads and parsing succeeds. */
  ghost function Parsed<K>(jwksJson: string, libs: Libraries<K>, r: Request): Option<Token>
  {
    match libs.newJson(jwksJson)
    case None => None
    case Some(keys) => libs.parse(TrimPrefix(Authorization(libs, r), BearerPrefix), keys)
  }

  /**
   * validateJWT step by step: which check, if any, rejected the request. Each
   * rejection holds exactly when every earlier check passed and this one failed.
   */
  function CheckJWT<K>(cfg: Config, jwksJson: string, libs: Libraries<K>, r: Request): (o: JwtOutcome)
    ensures o == Rejected(MissingBearerPrefix) <==> !HasPrefix(Authorization(libs, r), BearerPrefix)
    ensures o == Rejected(JwksLoadFailed) <==>
              HasPrefix(Authorization(libs, r), BearerPrefix) && libs.newJson(jwksJson).None?
    ensures o == Rejected(ParseFailed) <==>
              HasPrefix(Authorization(libs, r), BearerPrefix) && libs.newJson(jwksJson).Some?
              && Parsed(jwksJson, libs, r).None?
    ensures o == Rejected(ClaimsNotMap) <==>
              HasPrefix(Authorization(libs, r), BearerPrefix) && Parsed(jwksJson, libs, r).Some?
              && Parsed(jwksJson, libs, r).value.claims.OtherClaims?
    ensures o == Rejected(WrongIssuer) <==>
              HasPrefix(Authorization(libs, r), BearerPrefix) && Parsed(jwksJson, libs, r).Some?
              && var tok := Parsed(jwksJson, libs, r).value;
              && tok.claims.MapClaims?
              && !ClaimIs(tok.claims.entries, "iss", cfg.issuer)
    ensures o == Rejected(WrongAudience) <==>
              HasPrefix(Authorization(libs, r), BearerPrefix) && Parsed(jwksJson, libs, r).Some?
              && var tok := Parsed(jwksJson, libs, r).value;
              && tok.claims.MapClaims?
              && ClaimIs(tok.claims.entries, "iss", cfg.issuer)
              && !ClaimIs(tok.claims.entries, "aud", cfg.audienceId)
    ensures o == Rejected(TokenNotValid) <==>
              HasPrefix(Authorization(libs, r), BearerPrefix) && Parsed(jwksJson, libs, r).Some?
              && var tok := Parsed(jwksJson, libs, r).value;
              && tok.claims.MapClaims?
              && ClaimIs(tok.claims.entries, "iss", cfg.issuer)
              && ClaimIs(tok.claims.entries, "aud", cfg.audienceId)
              && !tok.valid
    ensures o.Accepted? <==>
              HasPrefix(Authorization(libs, r), BearerPrefix)
              && TokenAccepted(cfg, jwksJson, libs, TrimPrefix(Authorization(libs, r), BearerPrefix))
  {
    var authHeader := Authorization(libs, r);
    if !HasPrefix(authHeader, BearerPrefix) then Rejected(MissingBearerPrefix)
    else
      var tokenString := TrimPrefix(authHeader, BearerPrefix);
      match libs.newJson(jwksJson)
      case None => Rejected(JwksLoadFailed)
      case Some(jwks) =>
        match libs.parse(tokenString, jwks)
        case None => Rejected(ParseFailed)
        case Some(token) =>
          match token.claims
          case OtherClaims => Rejected(ClaimsNotMap)
          case MapClaims(claims) =>
            var issuer := StringClaim(claims, "iss");
            if issuer.None? || issuer.value != cfg.issuer then Rejected(WrongIssuer)
            else
              var audience := StringClaim(claims, "aud");
              if audience.None? || audience.value != cfg.audienceId then Rejected(WrongAudience)
              else if token.valid then Accepted
              else Rejected(TokenNotValid)
  }

  /**
   * validateJWT: true exactly when the Authorization value is "Bearer " followed by
   * a token the libraries accept and whose `iss` and `aud` are the configured strings.
   */
  function ValidateJWT<K>(cfg: Config, jwksJson: string, libs: Libraries<K>, r: Request): (ok: bool)
    ensures ok <==> BearerAccepted(cfg, jwksJson, libs, Authorization(libs, r))
    ensures !HasPrefix(Authorization(libs, r), BearerPrefix) ==> !ok
    ensures libs.newJson(jwksJson).None? ==> !ok
    ensures ok ==>
              var token := TrimPrefix(Authorization(libs, r), BearerPrefix);
              && BearerPrefix + token == Authorization(libs, r)
              && libs.parse(token, libs.newJson(jwksJson).value).Some?
              && var tok := libs.parse(token, libs.newJson(jwksJson).value).value;
              && tok.valid
              && tok.claims.MapClaims?
              && StringClaim(tok.claims.entries, "iss") == Some(cfg.issuer)
              && StringClaim(tok.claims.entries, "aud") == Some(cfg.audienceId)
  {
    CheckJWT(cfg, jwksJson, libs, r).Accepted?
  }

  /** validateBasicAuth: credentials were decoded and both parts equal the configured ones. */
  function ValidateBasicAuth<K>(cfg: Config, libs: Libraries<K>, r: Request): (ok: bool)
    ensures ok <==> BasicAccepted(cfg, libs, r)
    ensures libs.basicAuth(r.header).None? ==> !ok
  {
    match libs.basicAuth(r.header)
    case None => false
    case Some(creds) =>
      creds.username == cfg.basicAuthUsername && creds.password == cfg.basicAuthPassword
  }

  /**
   * authHandler: one response per request, 200 "Authorization successful" or 401
   * "Not authorized". A non-empty presence header commits the request to the JWT
   * path with no fallback to Basic; otherwise the Basic credentials decide.
   */
  function AuthHandler<K>(cfg: Config, jwksJson: string, libs: Libraries<K>, r: Request): (resp: Response)
    ensures resp == Authorized || resp == NotAuthorized
    ensures Presence(cfg, libs, r) != "" ==>
              (resp == Authorized <==> BearerAccepted(cfg, jwksJson, libs, Authorization(libs, r)))
    ensures Presence(cfg, libs, r) == "" ==>
              (resp == Authorized <==> BasicAccepted(cfg, libs, r))
  {
    if Presence(cfg, libs, r) != "" then
      if ValidateJWT(cfg, jwksJson, libs, r) then Authorized else NotAuthorized
    else if ValidateBasicAuth(cfg, libs, r) then Authorized
    else NotAuthorized
  }
}
