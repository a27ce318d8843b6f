/** The authentication middleware in front of every private route: a request
    without a token, or with one that does not verify, is refused with 401;
    otherwise the token's user becomes the acting user. Signature checking
    itself is the `verify` parameter. */
module Auth {
  import opened Common

  const NoToken := Rejected(401, "No Token ,authorization denied ")
  const BadToken := Rejected(401, "Token is not Valid")

  datatype Identity = Authenticated(user: UserId) | Denied(reply: Reply)

  /** `token` is the `x-auth-token` header (empty when absent); `verify` is
      the token check with the configured secret, giving the user it names. */
  function Authenticate(token: string, verify: string -> Option<UserId>): (r: Identity)
    ensures r.Authenticated? <==> token != [] && verify(token).Some?
    ensures r.Authenticated? ==> verify(token) == Some(r.user)
    ensures r.Denied? ==> r.reply.Rejected? && r.reply.status == 401
    ensures r.Denied? ==> (r.reply == NoToken <==> token == [])
  {
    if token == [] then Denied(NoToken)
    else match verify(token)
      case None => Denied(BadToken)
      case Some(user) => Authenticated(user)
  }
}
