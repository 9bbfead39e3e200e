/**
 * Properties of the authorisation decision that relate several calls or name
 * particular requests: the no-fallthrough policy, the independence of each path
 * from the other path's inputs, the strictness of the bearer scheme and of the
 * claim checks, and example scenarios.
 */
module ServerProperties {
  import opened Wrappers
  import opened GoStrings
  import opened NetHttp
  import opened JwtClaims
  import opened Server

  /** A JWT-path request whose token fails is refused, whatever Basic credentials it also carries. */
  lemma NoFallthroughToBasic<K>(cfg: Config, jwksJson: string, libs: Libraries<K>, r: Request)
    requires Presence(cfg, libs, r) != ""
    requires !ValidateJWT(cfg, jwksJson, libs, r)
    ensures AuthHandler(cfg, jwksJson, libs, r) == NotAuthorized
  {
  }

  /** On the JWT path the decoded Basic credentials play no part in the verdict. */
  lemma JwtPathIgnoresBasicCredentials<K>(cfg: Config, jwksJson: string, libs: Libraries<K>, r: Request,
                                          decode: Header -> Option<Credentials>)
    requires Presence(cfg, libs, r) != ""
    ensures AuthHandler(cfg, jwksJson, libs, r) == AuthHandler(cfg, jwksJson, libs.(basicAuth := decode), r)
  {
  }

  /** On the Basic path the JWKS document, the key-set loader and the token parser play no part. */
  lemma BasicPathIgnoresJwt<K>(cfg: Config, jwksJson: string, otherJwks: string, libs: Libraries<K>, r: Request,
                               load: string -> Option<K>, parse: (string, K) -> Option<Token>)
    requires Presence(cfg, libs, r) == ""
    ensures AuthHandler(cfg, jwksJson, libs, r) == AuthHandler(cfg, otherJwks, libs.(newJson := load, parse := parse), r)
  {
  }

  /** A request whose first presence value is non-empty is decided on the JWT path alone. */
  lemma PresentHeaderSelectsJwtPath<K>(cfg: Config, jwksJson: string, libs: Libraries<K>, r: Request, v: string)
    requires libs.canonicalKey(cfg.authHeaderName) in r.header
    requires |r.header[libs.canonicalKey(cfg.authHeaderName)]| > 0
    requires r.header[libs.canonicalKey(cfg.authHeaderName)][0] == v && v != ""
    ensures AuthHandler(cfg, jwksJson, libs, r) == Authorized <==> ValidateJWT(cfg, jwksJson, libs, r)
  {
  }

  /**
   * Configuring the presence header under another spelling with the same canonical
   * form leaves every response unchanged.
   */
  lemma PresenceNameUpToCanonicalForm<K>(cfg: Config, jwksJson: string, libs: Libraries<K>, r: Request, name: string)
    requires libs.canonicalKey(name) == libs.canonicalKey(cfg.authHeaderName)
    ensures AuthHandler(cfg.(authHeaderName := name), jwksJson, libs, r) == AuthHandler(cfg, jwksJson, libs, r)
  {
  }

  /** On the Basic path the verdict is acceptance exactly when validateBasicAuth holds. */
  lemma BasicPathDecides<K>(cfg: Config, jwksJson: string, libs: Libraries<K>, r: Request)
    requires Presence(cfg, libs, r) == ""
    ensures AuthHandler(cfg, jwksJson, libs, r) == Authorized <==> ValidateBasicAuth(cfg, libs, r)
  {
  }

  /** The status and the message always come as one of the two fixed pairs. */
  lemma StatusMatchesMessage<K>(cfg: Config, jwksJson: string, libs: Libraries<K>, r: Request)
    ensures var resp := AuthHandler(cfg, jwksJson, libs, r);
            (resp.status == StatusOK <==> resp.message == "Authorization successful")
            && (resp.status == StatusUnauthorized <==> resp.message == "Not authorized")
  {
  }

  /** The scheme is matched case-sensitively: "bearer " does not open the JWT path. */
  lemma LowercaseBearerRejected<K>(cfg: Config, jwksJson: string, libs: Libraries<K>, r: Request, token: string)
    requires Authorization(libs, r) == "bearer " + token
    ensures !ValidateJWT(cfg, jwksJson, libs, r)
  {
  }

  /** A Basic Authorization value sent on the JWT path is turned down at the prefix check. */
  lemma BasicSchemeOnJwtPathRejected<K>(cfg: Config, jwksJson: string, libs: Libraries<K>, r: Request, encoded: string)
    requires Presence(cfg, libs, r) != ""
    requires Authorization(libs, r) == "Basic " + encoded
    ensures CheckJWT(cfg, jwksJson, libs, r) == Rejected(MissingBearerPrefix)
    ensures AuthHandler(cfg, jwksJson, libs, r) == NotAuthorized
  {
    assert Authorization(libs, r)[1] == 'a' != BearerPrefix[1];
  }

  /**
   * The libraries with one claim of every parsed claim map replaced, the signature
   * verdict and everything else left as they were.
   */
  function WithClaim<K>(libs: Libraries<K>, name: string, v: Value): Libraries<K>
  {
    libs.(parse := (t, k) =>
      match libs.parse(t, k)
      case Some(Token(MapClaims(entries), valid)) => Some(Token(MapClaims(entries[name := v]), valid))
      case other => other)
  }

  /** Replacing the issuer of an accepted token with any other value makes it rejected. */
  lemma IssuerMutationRejected<K>(cfg: Config, jwksJson: string, libs: Libraries<K>, r: Request, v: Value)
    requires ValidateJWT(cfg, jwksJson, libs, r)
    requires v != Str(cfg.issuer)
    ensures !ValidateJWT(cfg, jwksJson, WithClaim(libs, "iss", v), r)
  {
  }

  /** Replacing the audience of an accepted token with any other value makes it rejected. */
  lemma AudienceMutationRejected<K>(cfg: Config, jwksJson: string, libs: Libraries<K>, r: Request, v: Value)
    requires ValidateJWT(cfg, jwksJson, libs, r)
    requires v != Str(cfg.audienceId)
    ensures !ValidateJWT(cfg, jwksJson, WithClaim(libs, "aud", v), r)
  {
  }

  /**
   * An `aud` claim in the array form, even one listing only the configured audience,
   * is not a string and is rejected.
   */
  lemma ArrayAudienceRejected<K>(cfg: Config, jwksJson: string, libs: Libraries<K>, r: Request,
                                 token: string, keys: K, entries: map<string, Value>, valid: bool)
    requires Authorization(libs, r) == BearerPrefix + token
    requires libs.newJson(jwksJson) == Some(keys)
    requires libs.parse(token, keys) == Some(Token(MapClaims(entries), valid))
    requires "aud" in entries && entries["aud"].Array?
    ensures !ValidateJWT(cfg, jwksJson, libs, r)
  {
  }

  /** A bearer token the libraries accept, with the configured issuer and audience, opens the JWT path. */
  lemma ValidBearerAccepted<K>(cfg: Config, jwksJson: string, libs: Libraries<K>, r: Request,
                               token: string, keys: K, entries: map<string, Value>)
    requires Presence(cfg, libs, r) != ""
    requires Authorization(libs, r) == BearerPrefix + token
    requires libs.newJson(jwksJson) == Some(keys)
    requires libs.parse(token, keys) == Some(Token(MapClaims(entries), true))
    requires "iss" in entries && entries["iss"] == Str(cfg.issuer)
    requires "aud" in entries && entries["aud"] == Str(cfg.audienceId)
    ensures AuthHandler(cfg, jwksJson, libs, r) == Authorized
  {
  }

  /** A request with neither a presence header nor matching Basic credentials is refused. */
  lemma NoCredentialsRejected<K>(cfg: Config, jwksJson: string, libs: Libraries<K>, r: Request)
    requires Presence(cfg, libs, r) == ""
    requires !BasicAccepted(cfg, libs, r)
    ensures AuthHandler(cfg, jwksJson, libs, r) == NotAuthorized
  {
  }

  /** The configuration of the example scenarios. */
  const ScenarioConfig: Config := Config(
    audienceId := "svc-a",
    issuer := "https://idp.example",
    jwksUrl := "",
    authHeaderName := "X-Auth",
    basicAuthUsername := "ops",
    basicAuthPassword := "s3cret",
    port := "",
    endpoints := [],
    enableTls := false)

  /** On the Basic path, decoded credentials ops / s3cret are accepted and ops / wrong are not. */
  lemma ScenarioBasic<K>(jwksJson: string, libs: Libraries<K>, r: Request)
    requires Presence(ScenarioConfig, libs, r) == ""
    ensures libs.basicAuth(r.header) == Some(Credentials("ops", "s3cret")) ==>
              AuthHandler(ScenarioConfig, jwksJson, libs, r) == Authorized
    ensures libs.basicAuth(r.header) == Some(Credentials("ops", "wrong")) ==>
              AuthHandler(ScenarioConfig, jwksJson, libs, r) == NotAuthorized
  {
  }

  /** A well-signed token from the right issuer but for audience "svc-b" is refused by a gateway for "svc-a". */
  lemma ScenarioWrongAudience<K>(jwksJson: string, libs: Libraries<K>, r: Request,
                                 token: string, keys: K, entries: map<string, Value>)
    requires Presence(ScenarioConfig, libs, r) != ""
    requires Authorization(libs, r) == BearerPrefix + token
    requires libs.newJson(jwksJson) == Some(keys)
    requires libs.parse(token, keys) == Some(Token(MapClaims(entries), true))
    requires "iss" in entries && entries["iss"] == Str("https://idp.example")
    requires "aud" in entries && entries["aud"] == Str("svc-b")
    ensures CheckJWT(ScenarioConfig, jwksJson, libs, r) == Rejected(WrongAudience)
    ensures AuthHandler(ScenarioConfig, jwksJson, libs, r) == NotAuthorized
  {
  }
}
