/**
 * The shape of a token as jwt.Parse hands it back: a claim set and the `Valid`
 * flag. Claims decoded from JSON hold loosely typed values, so the handler reads
 * `iss` and `aud` through a Go type assertion to `string`.
 */
module JwtClaims {
  import opened Wrappers

  /** A decoded JSON value as it can sit in jwt.MapClaims. */
  datatype Value =
    | Null
    | Bool(b: bool)
    | Number(n: int)
    | Str(s: string)
    | Array(items: seq<Value>)
    | Object(fields: map<string, Value>)

  /** token.Claims: either the jwt.MapClaims the handler expects, or some other claims type. */
  datatype Claims = MapClaims(entries: map<string, Value>) | OtherClaims

  /** *jwt.Token as far as the handler reads it. */
  datatype Token = Token(claims: Claims, valid: bool)

  /**
   * `claims[name].(string)`: the claim's text when it is present and a JSON string;
   * a missing claim (a nil interface) or a claim of any other type gives None.
   */
  function StringClaim(entries: map<string, Value>, name: string): (r: Option<string>)
    ensures r.Some? <==> name in entries && entries[name].Str?
    ensures forall v :: r == Some(v) <==> name in entries && entries[name] == Str(v)
  {
    if name in entries && entries[name].Str? then Some(entries[name].s) else None
  }
}
