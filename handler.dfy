/**
 * The RPC handler's client address (node/handler/handler.go): the address
 * `ServeHTTP` stores in the request context, taken from the proxy headers
 * or the connection, and `GetRemoteAddr`, which reads it back.
 */
module Handler {
  import opened Text

  /** What the context holds under the `RemoteAddr{}` key. */
  datatype ContextValue = Missing | StringValue(s: string) | OtherValue

  /** `GetRemoteAddr`: the stored text, or empty when the value is missing
      or not a string. */
  function GetRemoteAddr(v: ContextValue): (r: string)
    ensures v.StringValue? ==> r == v.s
    ensures !v.StringValue? ==> r == ""
  {
    match v
    case StringValue(s) => s
    case _ => ""
  }

  /** The first comma-separated element of an `X-Forwarded-For` value,
      trimmed. */
  function FirstForwarded(forwardedFor: string): (r: string)
    ensures IsTrimmed(r) && ',' !in r
    ensures r == "" <==> AllSpace(BeforeFirst(forwardedFor, ','))
  {
    var first := BeforeFirst(forwardedFor, ',');
    BeforeFirstIsPrefix(forwardedFor, ',');
    TrimSpaceTrims(first);
    TrimmingOmits(first, LeadingSpace(first), TrimSpace(first), ',');
    TrimSpace(first)
  }

  /** `getClientIP`, given the first values of the `X-Forwarded-For` and
      `X-Real-Ip` headers (empty when absent): empty exactly when both carry
      nothing but white space before the first comma; never with surrounding
      white space. */
  function GetClientIP(forwardedFor: string, realIp: string): (r: string)
    ensures IsTrimmed(r)
    ensures r == "" <==> AllSpace(BeforeFirst(forwardedFor, ',')) && AllSpace(realIp)
    ensures !AllSpace(BeforeFirst(forwardedFor, ',')) ==> r == FirstForwarded(forwardedFor) && ',' !in r
    ensures AllSpace(BeforeFirst(forwardedFor, ',')) ==> r == TrimSpace(realIp)
  {
    TrimSpaceTrims(realIp);
    var clientIP := FirstForwarded(forwardedFor);
    if clientIP == "" then TrimSpace(realIp) else clientIP
  }

  /** The value `ServeHTTP` puts in the context: the header-derived address,
      or the connection's `RemoteAddr` when that is empty. */
  function ServedRemoteAddr(forwardedFor: string, realIp: string, connAddr: string): (r: string)
    ensures GetClientIP(forwardedFor, realIp) == "" ==> r == connAddr
    ensures GetClientIP(forwardedFor, realIp) != "" ==> r == GetClientIP(forwardedFor, realIp)
  {
    var remoteAddr := GetClientIP(forwardedFor, realIp);
    if remoteAddr == "" then connAddr else remoteAddr
  }

  /** The context `ServeHTTP` builds for the next handler. */
  function ServedContext(forwardedFor: string, realIp: string, connAddr: string): ContextValue
  {
    StringValue(ServedRemoteAddr(forwardedFor, realIp, connAddr))
  }

  /** Downstream, `GetRemoteAddr` reads back what `ServeHTTP` stored. */
  lemma ServeThenGet(forwardedFor: string, realIp: string, connAddr: string)
    ensures GetRemoteAddr(ServedContext(forwardedFor, realIp, connAddr)) == ServedRemoteAddr(forwardedFor, realIp, connAddr)
    ensures connAddr != "" ==> GetRemoteAddr(ServedContext(forwardedFor, realIp, connAddr)) != ""
  {
  }

  /** A proxy chain `client, proxy…` yields the client, whatever
      `X-Real-Ip` says. */
  lemma ForwardedChainGivesClient(client: string, rest: string, realIp: string)
    requires ',' !in client && IsTrimmed(client) && client != ""
    ensures GetClientIP(client + "," + rest, realIp) == client
  {
    assert client + "," + rest == client + [','] + rest;
    BeforeFirstOfConcat(client, ',', rest);
    TrimSpaceOfTrimmed(client);
  }

  /** Without `X-Forwarded-For`, the trimmed `X-Real-Ip` is used, and
      without either header the connection address is stored. */
  lemma RealIpFallback(realIp: string, connAddr: string)
    ensures GetClientIP("", realIp) == TrimSpace(realIp)
    ensures ServedRemoteAddr("", "", connAddr) == connAddr
  {
    assert BeforeFirst("", ',') == "";
  }
}
