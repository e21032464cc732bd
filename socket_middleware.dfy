/** `socketAuthMiddleware`: the real-time connection handshake is admitted
    on signature validity alone. The token comes from `handshake.auth.token`;
    on success the verified payload is attached to `socket.data.user`. */
module SocketMiddleware {
  import opened Common
  import opened Tokens
  import AuthMiddleware

  const AuthenticationError := "Authentication error"
  const NoTokenProvided := "No token provided"
  const FailedToAuthenticate := "Failed to authenticate token"

  /** `new Error('Authentication error')` with `data = { message: cause }`. */
  datatype SocketError = SocketError(message: string, cause: string)

  datatype Handshake = Accept(user: Identity) | Reject(error: SocketError)

  /** The handshake decision for a token, which may be absent. */
  function Decide(token: Option<string>, verify: string -> Verdict): (h: Handshake)
    ensures h.Reject? ==> h.error.message == AuthenticationError
    ensures h.Reject? && h.error.cause == NoTokenProvided <==> token == None || token == Some("")
    ensures h.Accept? ==> token.Some? && token.value != "" && verify(token.value) == Verified(Claims(h.user))
    ensures token.Some? && token.value != "" && verify(token.value).Verified? && verify(token.value).payload.Claims? ==>
      h == Accept(verify(token.value).payload.identity)
  {
    if token == None || token == Some("") then Reject(SocketError(AuthenticationError, NoTokenProvided))
    else match verify(token.value)
      case Verified(Claims(u)) => Accept(u)
      case Verified(Text(_)) => Reject(SocketError(AuthenticationError, FailedToAuthenticate))
      case VerifyFailed(_) => Reject(SocketError(AuthenticationError, FailedToAuthenticate))
  }

  /** A connection: `socket.data.user` and the arguments `next` was called
      with (`None` for `next()`). */
  class Connection {
    var user: Option<Identity>
    var nextArgs: seq<Option<SocketError>>

    constructor ()
      ensures user == None && nextArgs == []
    {
      user, nextArgs := None, [];
    }

    /** Runs the middleware: `next` is called exactly once, with no argument
        on success (after the identity is attached) and with the error
        otherwise. */
    method Authenticate(token: Option<string>, verify: string -> Verdict)
      modifies this
      ensures Decide(token, verify).Accept? ==>
        user == Some(Decide(token, verify).user) && nextArgs == old(nextArgs) + [None]
      ensures Decide(token, verify).Reject? ==>
        user == old(user) && nextArgs == old(nextArgs) + [Some(Decide(token, verify).error)]
    {
      if token == None || token == Some("") {
        nextArgs := nextArgs + [Some(SocketError(AuthenticationError, NoTokenProvided))];
        return;
      }
      var verdict := verify(token.value);
      if verdict.Verified? && verdict.payload.Claims? {
        user := Some(verdict.payload.identity);
        nextArgs := nextArgs + [None];
      } else {
        nextArgs := nextArgs + [Some(SocketError(AuthenticationError, FailedToAuthenticate))];
      }
    }
  }

  /** Verification errors and non-object payloads end the same way. */
  lemma FailedVerification(token: string, verify: string -> Verdict)
    requires token != ""
    requires verify(token).VerifyFailed? || verify(token).payload.Text?
    ensures Decide(Some(token), verify) == Reject(SocketError(AuthenticationError, FailedToAuthenticate))
  {
  }

  /** The channel trusts the signature alone: a token the HTTP middleware
      refuses because no session record is left for it (a revoked session)
      still opens a socket. */
  lemma {:induction false} RevokedSessionStillConnects(token: string, codec: Codec, u: Identity)
    requires token != "" && ' ' !in token
    requires codec.verify(token) == Verified(Claims(u))
    ensures Decide(Some(token), codec.verify) == Accept(u)
    ensures AuthMiddleware.Authenticate(Some("Bearer " + token), codec, map[], None) ==
      AuthMiddleware.Refuse(MessageReply(401, AuthMiddleware.LoginAgain))
  {
    assert "Bearer " + token == "Bearer" + " " + token;
    AuthMiddleware.BearerToken("Bearer", token);
  }
}
