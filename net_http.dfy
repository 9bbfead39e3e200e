/**
 * The parts of Go's net/http that the handler touches: request headers, the
 * decoded Basic credentials and the status/message pair written back.
 */
module NetHttp {

  /** http.Header: a header name mapped to the values received under it. */
  type Header = map<string, seq<string>>

  /**
   * http.Header.Get: the first value stored under the canonical form of key, or ""
   * when there is none. net/http stores received headers under canonical names;
   * canon stands for textproto.CanonicalMIMEHeaderKey.
   */
  function HeaderGet(h: Header, canon: string -> string, key: string): (v: string)
    ensures canon(key) in h && |h[canon(key)]| > 0 ==> v == h[canon(key)][0]
    ensures canon(key) !in h || h[canon(key)] == [] ==> v == ""
  {
    if canon(key) in h && |h[canon(key)]| > 0 then h[canon(key)][0] else ""
  }

  /** The username and password that (*http.Request).BasicAuth decodes. */
  datatype Credentials = Credentials(username: string, password: string)

  const StatusOK: int := 200
  const StatusUnauthorized: int := 401

  /** What respond writes: the status line and the "message" of the JSON body. */
  datatype Response = Response(status: int, message: string)
}
