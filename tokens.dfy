/** Session tokens and the identities they carry. Signing and verification
    (the `jsonwebtoken` library and the shared secret) are abstract: a codec
    is a pair of functions supplied by the caller. */
module Tokens {

  /** The account role; only buyers and sellers are distinguished by the core. */
  datatype Role = Buyer | Seller | OtherRole(name: string)

  /** The decoded identity: user id (as it is rendered inside a template
      string), email and role. */
  datatype Identity = Identity(id: string, email: string, role: Role)

  /** The payload `jwt.verify` hands its callback: a claims object, or a bare
      string (a token signed over a string payload). */
  datatype Payload = Claims(identity: Identity) | Text(text: string)

  /** `jwt.verify(token, secret, callback)`: the callback gets either an error
      or the payload. A verify that throws is folded into `VerifyFailed` with
      the thrown message, since both end the same way. */
  datatype Verdict = Verified(payload: Payload) | VerifyFailed(message: string)

  /** The token codec: signature and expiry check, and `decodeToken`. */
  datatype Codec = Codec(verify: string -> Verdict, decode: string -> Identity)

  /** The cache key of a user's session record, `user:${id}`. */
  function SessionKey(id: string): string
  {
    "user:" + id
  }

  /** Different users have different session records. */
  lemma SessionKeyInjective(a: string, b: string)
    ensures SessionKey(a) == SessionKey(b) <==> a == b
  {
    if SessionKey(a) == SessionKey(b) {
      assert a == SessionKey(a)[5..];
      assert b == SessionKey(b)[5..];
    }
  }
}
