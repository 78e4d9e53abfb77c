/** What the route guards and the HTTP interceptor share: the decoded access
    token, the reply of a refresh request, and the view a guard renders. */
module Session {
  import opened Wrappers

  /** What `jwtDecode(token)` yields: a thrown error, or the claims with the
      `exp` claim (seconds since the epoch, section 4.1.4 of RFC 7519) if present. */
  datatype Decoded = Malformed | Claims(exp: Option<int>)

  /** The outcome of one HTTP request: a reply with its status and the `access`
      field of its JSON body (if any), or a failure with no reply at all. */
  datatype Reply = Reply(status: int, access: Option<string>) | NetworkError

  /** Whether a POST to the refresh endpoint was sent, and with which `refresh` body value. */
  datatype Post = NoPost | Posted(refresh: Option<string>)

  /** What a guard renders. */
  datatype View = Loading | Children | Redirect(to: string)

  /** `decoded.exp < Date.now() / 1000` with the clock given in milliseconds.
      An absent claim compares as `undefined < now`, which is false. */
  predicate ExpiredAt(exp: Option<int>, nowMs: int) {
    exp.Some? && exp.value * 1000 < nowMs
  }

  /** axios rejects every reply whose status is outside 200-299, and every network failure. */
  predicate AxiosRejects(reply: Reply) {
    reply.NetworkError? || !(200 <= reply.status < 300)
  }
}
