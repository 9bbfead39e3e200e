# Authorisation decision of an OAuth/Basic forward-auth gateway

This project models the per-request decision of the gateway in `server.go`. The
handler `authHandler` reads a configured presence header. A non-empty value
commits the request to the JWT path (`validateJWT`). An empty one sends it to
the Basic path (`validateBasicAuth`). The request then gets either
200 "Authorization successful" or 401 "Not authorized".

The JWT path:
- requires the exact, case-sensitive `"Bearer "` scheme prefix (section 2.1 of RFC 6750) and strips it;
- builds the key set from the JWKS document and parses the token under it, rejecting on either error;
- requires the claims to be a claim map;
- requires `iss` and `aud` to be JSON strings equal to the configured issuer and audience (sections 4.1.1 and 4.1.3 of RFC 7519, restricted to the string form of `aud`);
- finally returns the token's `Valid` flag.

Modules:
- `Wrappers` (`wrappers.dfy`): `Option`.
- `GoStrings` (`go_strings.dfy`): Go's `strings.HasPrefix` and `strings.TrimPrefix`.
- `NetHttp` (`net_http.dfy`): headers, `Header.Get`, Basic credentials, the status/message response.
- `JwtClaims` (`jwt_claims.dfy`): decoded JSON claim values, the claims of a parsed token, and the `.(string)` type assertion on a claim.
- `Server` (`server.dfy`): the configuration, the library oracles and the three functions of `server.go`, plus the independent reference predicates `TokenAccepted`, `BearerAccepted` and `BasicAccepted` that the contracts are stated against.
- `ServerProperties` (`server_properties.dfy`): cross-call properties and example scenarios.

How the source's context is represented:
- The globals `config` and `jwksJSON` are assigned once at start-up and only read afterwards. Here they are parameters.
- The library calls are fields of a `Libraries<K>` value: `keyfunc.NewJSON`, `jwt.Parse` with the key set's `Keyfunc`, `(*http.Request).BasicAuth`, and the header-name canonicalisation `textproto.CanonicalMIMEHeaderKey` that `http.Header.Get` applies. `K` is the key-set type, which the handler never looks into.
- `validateJWT` is modelled by `CheckJWT`, which names the check that rejected the request (one per log line or early return). `ValidateJWT` is its boolean verdict.

Three behaviours of the code are worth stating:
- The JWT path is chosen when the presence header has a non-empty first value, not when the header merely exists.
- Credentials are compared with plain string equality, not in constant time.
- The key set is rebuilt from the start-up copy of the JWKS document on every request. It is neither refetched nor cached as parsed keys.

## Model

| member | source | states |
|---|---|---|
| GoStrings.HasPrefix | server.go:73 | the prefix test holds exactly when the value is at least as long as the prefix and agrees with it character by character |
| NetHttp.HeaderGet | server.go:53 | the result is the first value stored under the canonical form of the key whenever there is one, and "" when that name is absent or has no values |
| Server.Authorization | server.go:72 | the Authorization value is the first value under the canonical form of "Authorization" whenever there is one, and "" when that header is absent or has no values |
| Server.Presence | server.go:53 | the presence value is the first value under the canonical form of the configured name whenever there is one, and "" when that header is absent or has no values |
| GoStrings.HasPrefixIsConcatenation | server.go:73-75 | the prefix check succeeds exactly when the value is the prefix followed by some rest |
| GoStrings.TrimPrefix | server.go:76 | after a successful prefix check, prefix + stripped token is the original header; otherwise the value is unchanged |
| GoStrings.TrimPrefixOfConcatenation | server.go:76 | stripping the prefix from prefix + rest removes exactly one prefix and gives back rest |
| JwtClaims.StringClaim | server.go:100-107 | the type assertion yields a string exactly when the claim is present and a JSON string, and then it is that string; missing or other-typed claims yield nothing |
| Server.CheckJWT | server.go:70-114 | each rejection reason holds exactly when the earlier checks passed and its own check failed (prefix, JWKS load, parse, claims type, issuer, audience, Valid); acceptance holds iff the prefix is present and the stripped token is accepted |
| Server.ValidateJWT | server.go:70-114 | true iff the header is "Bearer " + an accepted token; false without the prefix or when the JWKS fails to load; true implies the parse succeeded, Valid holds, and iss/aud are the configured strings |
| Server.ValidateBasicAuth | server.go:116-123 | true iff credentials were decoded and both username and password equal the configured ones; false when none were decoded |
| Server.AuthHandler | server.go:51-68 | the response is one of the two fixed responses; with a non-empty presence header it is 200 iff the bearer token is accepted, otherwise 200 iff the Basic credentials match |
| ServerProperties.NoFallthroughToBasic | server.go:53-67 | a JWT-path request whose token fails gets 401 whatever its Basic credentials |
| ServerProperties.JwtPathIgnoresBasicCredentials | server.go:53-58 | on the JWT path, replacing the Basic decoder does not change the response |
| ServerProperties.BasicPathIgnoresJwt | server.go:59-63 | on the Basic path, replacing the JWKS document, the key-set loader and the token parser does not change the response |
| ServerProperties.PresentHeaderSelectsJwtPath | server.go:53-58 | a request whose first value under the presence header is non-empty gets 200 exactly when validateJWT holds |
| ServerProperties.PresenceNameUpToCanonicalForm | server.go:53 | configuring the presence header under another spelling with the same canonical form gives the same response to every request |
| ServerProperties.BasicPathDecides | server.go:59-67 | on the Basic path the response is 200 iff validateBasicAuth holds |
| ServerProperties.StatusMatchesMessage | server.go:55-67 | status 200 goes with "Authorization successful" and 401 with "Not authorized", and with nothing else |
| ServerProperties.LowercaseBearerRejected | server.go:73-75 | an Authorization value beginning "bearer " is rejected: the scheme match is case-sensitive |
| ServerProperties.BasicSchemeOnJwtPathRejected | server.go:72-75 | a "Basic ..." Authorization value on the JWT path is rejected at the prefix check with a 401 |
| ServerProperties.IssuerMutationRejected | server.go:100-104 | replacing the iss claim of an accepted token by any other value, keeping the signature verdict, makes it rejected |
| ServerProperties.AudienceMutationRejected | server.go:107-111 | replacing the aud claim of an accepted token by any other value, keeping the signature verdict, makes it rejected |
| ServerProperties.ArrayAudienceRejected | server.go:107-111 | an aud claim in array form is rejected, even one listing the configured audience |
| ServerProperties.ValidBearerAccepted | server.go:53-58 | a parsed, valid token with the configured iss and aud behind "Bearer " gets 200 on the JWT path |
| ServerProperties.NoCredentialsRejected | server.go:59-67 | with no presence header and no matching Basic credentials the response is 401 |
| ServerProperties.ScenarioBasic | server.go:116-123 | with configured ops/s3cret, decoded ops/s3cret gets 200 and ops/wrong gets 401 |
| ServerProperties.ScenarioWrongAudience | server.go:106-111 | a valid token from the right issuer for audience svc-b is rejected for WrongAudience by a gateway for svc-a |

## Left out

- `main`, `readConfig` and `getJwksJson` (server.go:36-49, 131-161): file reading, the HTTP GET of the JWKS document, listener and TLS set-up and process exit. The configuration and the JWKS text are parameters.
- `respond` and every `log` call (server.go:125-129): JSON encoding and logging. A response is a status/message pair. The log text is represented only by the rejection reasons of `CheckJWT`.
- Signature verification, key-id selection, algorithm checks and `exp`/`nbf` checks inside `jwt.Parse` and `keyfunc`: library code, modelled as the `parse` oracle. An unknown key, a bad signature or an expired token is a `None` from it (or `valid == false`).
- Basic header decoding inside `(*http.Request).BasicAuth` (base64, the "Basic " scheme, the colon split): library code, modelled as the `basicAuth` oracle on the request headers.
- The canonicalisation algorithm of `textproto.CanonicalMIMEHeaderKey`: library code, modelled as the `canonicalKey` oracle, so the model does not know which spellings share a canonical form (for example that "x-auth" and "X-Auth" both name the presence header); a property that depends on a particular spelling needs that fact as a hypothesis.
- JSON numbers in claims are float64 in Go and integers here. The handler never reads a numeric claim.
- Go strings are byte strings and Dafny strings are character sequences. The model takes every string (header values, decoded credentials, claims, configuration) to be encoded by one and the same injective byte-to-character map. Under that assumption, equality and the prefix test with the ASCII literal "Bearer " give the same answers on both sides. Basic decoding can produce bytes that are not valid UTF-8; what the model assumes for them is that same injective map, not any particular decoding.
- Concurrent handling of requests by `net/http`: each request is one call of a pure function over read-only inputs.
- Constant-time credential comparison: the code uses plain `==`, so there is no timing behaviour to model.
