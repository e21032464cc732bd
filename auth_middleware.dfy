/** The HTTP session validator `isAuthenticated`: it reads the bearer token
    from the `Authorization` header, verifies it, and admits the request only
    when the session record cached for the token's user holds that token. */
module AuthMiddleware {
  import opened Common
  import opened Strings
  import opened Tokens

  const PleaseLogin := "Please Login"
  const NoAccessToken := "no access token found"
  const ServerDown := "Internal server down"
  const LoginAgain := "Please login again"

  /** What the `Authorization` header yields. */
  datatype Bearer = NoHeader | NoToken | Token(token: string)

  /** An absent or empty header is `NoHeader`; otherwise the token is the
      second space-separated part, `header.split(' ')[1]`, and an absent or
      empty part is `NoToken`. */
  function ReadBearer(header: Option<string>): Bearer
  {
    if header == None || header == Some("") then NoHeader
    else match Part(header.value, ' ', 1)
      case Some(t) => if t == "" then NoToken else Token(t)
      case None => NoToken
  }

  /** The decision of the middleware: call `next()` with the decoded identity
      attached, or answer with a reply and stop. */
  datatype Decision = Proceed(user: Identity) | Refuse(reply: Reply)

  /** Where the live session of a user is cached: a seller's under the email,
      everybody else's under `user:<id>`. */
  function SessionRecordKey(u: Identity): string
  {
    if u.role == Seller then u.email else SessionKey(u.id)
  }

  /** Whether the cached record admits the presented token: a seller's record
      has the shape `code=token` and its part after `=` must be the token;
      anybody else's record must be the token verbatim. */
  predicate Admits(u: Identity, cached: string, token: string)
  {
    if u.role == Seller then Part(cached, '=', 1) == Some(token) else cached == token
  }

  /** The reply of the middleware's catch: 500 with the error's message. */
  function ServerDownReply(error: string): Reply
  {
    Reply(500, map["message" := JStr(ServerDown), "error" := JStr(error)])
  }

  /** `isAuthenticated` as a function of the header, the codec and the cache.
      `failure` is `Some(e)` when the cache server is down and its read of
      the session record throws `e`. */
  function Authenticate(header: Option<string>, codec: Codec, cache: map<string, string>, failure: Option<string>): Decision
  {
    match ReadBearer(header)
    case NoHeader => Refuse(MessageReply(401, PleaseLogin))
    case NoToken => Refuse(MessageReply(401, NoAccessToken))
    case Token(t) =>
      match codec.verify(t)
      case VerifyFailed(e) => Refuse(ServerDownReply(e))
      case Verified(_) =>
        var u := codec.decode(t);
        var key := SessionRecordKey(u);
        if failure.Some? then Refuse(ServerDownReply(failure.value))
        else if key in cache && Admits(u, cache[key], t) then Proceed(u)
        else Refuse(MessageReply(401, LoginAgain))
  }

  /** The request/response pair the middleware works on: `req.user`,
      `res.locals.decoded`, the reply sent (if any) and how often `next()`
      was called. */
  class Exchange {
    var user: Option<Identity>
    var decoded: Option<Identity>
    var sent: Option<Reply>
    var nextCalls: nat

    constructor ()
      ensures user == None && decoded == None && sent == None && nextCalls == 0
    {
      user, decoded, sent, nextCalls := None, None, None, 0;
    }

    /** Runs the middleware on this exchange. On success the identity is
        attached to both `req.user` and `res.locals.decoded` and `next()` is
        called once, with nothing sent; on failure a reply is sent, `next()`
        is not called and nothing is attached. */
    method IsAuthenticated(header: Option<string>, codec: Codec, cache: map<string, string>, failure: Option<string>)
      modifies this
      ensures Authenticate(header, codec, cache, failure).Proceed? ==>
        var u := Authenticate(header, codec, cache, failure).user;
        user == Some(u) && decoded == Some(u) &&
        nextCalls == old(nextCalls) + 1 && sent == old(sent)
      ensures Authenticate(header, codec, cache, failure).Refuse? ==>
        sent == Some(Authenticate(header, codec, cache, failure).reply) &&
        user == old(user) && decoded == old(decoded) && nextCalls == old(nextCalls)
    {
      if header == None || header == Some("") {
        sent := Some(MessageReply(401, PleaseLogin));
        return;
      }
      var token := Part(header.value, ' ', 1);
      if token == None || token == Some("") {
        sent := Some(MessageReply(401, NoAccessToken));
        return;
      }
      var t := token.value;
      var verdict := codec.verify(t);
      if verdict.VerifyFailed? {
        sent := Some(ServerDownReply(verdict.message));
        return;
      }
      var u := codec.decode(t);
      var key := SessionRecordKey(u);
      if failure.Some? {
        sent := Some(ServerDownReply(failure.value));
        return;
      }
      if key !in cache {
        sent := Some(MessageReply(401, LoginAgain));
        return;
      }
      var cached := cache[key];
      if !Admits(u, cached, t) {
        sent := Some(MessageReply(401, LoginAgain));
        return;
      }
      user := Some(u);
      decoded := Some(u);
      nextCalls := nextCalls + 1;
    }
  }

  /** A header `<scheme> <token>` with space-free parts yields that token. */
  lemma BearerToken(scheme: string, token: string)
    requires ' ' !in scheme && ' ' !in token && token != ""
    ensures ReadBearer(Some(scheme + " " + token)) == Token(token)
  {
    SplitPair(scheme, ' ', token);
  }

  /** A non-empty header without a space has no second part: the reply is
      "no access token found", distinct from the missing-header reply. */
  lemma {:induction false} SpacelessHeaderHasNoToken(header: string, codec: Codec, cache: map<string, string>, failure: Option<string>)
    requires header != "" && ' ' !in header
    ensures ReadBearer(Some(header)) == NoToken
    ensures Authenticate(Some(header), codec, cache, failure) == Refuse(MessageReply(401, NoAccessToken))
  {
    SplitFree(header, ' ');
  }

  /** Without a header the reply is 401 "Please Login". */
  lemma MissingHeader(codec: Codec, cache: map<string, string>, failure: Option<string>)
    ensures Authenticate(None, codec, cache, failure) == Refuse(MessageReply(401, PleaseLogin))
    ensures MessageReply(401, PleaseLogin) != MessageReply(401, NoAccessToken)
  {
    assert MessageReply(401, PleaseLogin).body["message"] != MessageReply(401, NoAccessToken).body["message"];
  }

  /** The headers of the tests, `uu` and `Bearer1`, have no token. */
  lemma MalformedHeaderExamples(codec: Codec, cache: map<string, string>, failure: Option<string>)
    ensures Authenticate(Some("uu"), codec, cache, failure) == Refuse(MessageReply(401, NoAccessToken))
    ensures Authenticate(Some("Bearer1"), codec, cache, failure) == Refuse(MessageReply(401, NoAccessToken))
  {
    SpacelessHeaderHasNoToken("uu", codec, cache, failure);
    SpacelessHeaderHasNoToken("Bearer1", codec, cache, failure);
  }

  /** A token that fails verification gives 500 with the verifier's message. */
  lemma VerifyFailure(scheme: string, token: string, codec: Codec, cache: map<string, string>, failure: Option<string>)
    requires ' ' !in scheme && ' ' !in token && token != ""
    requires codec.verify(token).VerifyFailed?
    ensures Authenticate(Some(scheme + " " + token), codec, cache, failure) ==
      Refuse(Reply(500, map["message" := JStr(ServerDown), "error" := JStr(codec.verify(token).message)]))
  {
    BearerToken(scheme, token);
  }

  /** A cache read that throws lands in the same catch: 500 with the
      cache's error, whatever the session record would have said. */
  lemma CacheReadFailure(scheme: string, token: string, codec: Codec, cache: map<string, string>, error: string)
    requires ' ' !in scheme && ' ' !in token && token != ""
    requires codec.verify(token).Verified?
    ensures Authenticate(Some(scheme + " " + token), codec, cache, Some(error)) ==
      Refuse(Reply(500, map["message" := JStr(ServerDown), "error" := JStr(error)]))
  {
    BearerToken(scheme, token);
  }

  /** The session-record invariant: a request is admitted only if its token
      (the header's second part) verifies, the record for the token's user
      exists, and it admits that token; the admitted identity is the decoded
      one. */
  lemma AdmittedOnlyWithLiveSession(header: Option<string>, codec: Codec, cache: map<string, string>, failure: Option<string>)
    requires Authenticate(header, codec, cache, failure).Proceed?
    ensures header.Some? && failure == None
    ensures var t := Part(header.value, ' ', 1);
      var u := Authenticate(header, codec, cache, failure).user;
      t.Some? && t.value != "" &&
      codec.verify(t.value).Verified? &&
      u == codec.decode(t.value) &&
      SessionRecordKey(u) in cache &&
      Admits(u, cache[SessionRecordKey(u)], t.value)
  {
  }

  /** Conversely, a well-formed header whose verified token is held verbatim
      in the record `user:<id>` of a non-seller is admitted. */
  lemma LiveSessionAdmitted(scheme: string, token: string, codec: Codec, cache: map<string, string>)
    requires ' ' !in scheme && ' ' !in token && token != ""
    requires codec.verify(token).Verified?
    requires codec.decode(token).role != Seller
    requires SessionKey(codec.decode(token).id) in cache
    requires cache[SessionKey(codec.decode(token).id)] == token
    ensures Authenticate(Some(scheme + " " + token), codec, cache, None) == Proceed(codec.decode(token))
  {
    BearerToken(scheme, token);
  }

  /** The seller's converse: a well-formed header whose verified token is the
      part after `=` of the record `code=token` under the seller's email is
      admitted. Any record of that shape qualifies, so the pending record
      written before the second factor is checked admits its token too. */
  lemma SellerSessionAdmitted(scheme: string, code: string, token: string, codec: Codec, cache: map<string, string>)
    requires ' ' !in scheme && ' ' !in token && token != ""
    requires '=' !in code && '=' !in token
    requires codec.verify(token).Verified?
    requires codec.decode(token).role == Seller
    requires codec.decode(token).email in cache
    requires cache[codec.decode(token).email] == code + "=" + token
    ensures Authenticate(Some(scheme + " " + token), codec, cache, None) == Proceed(codec.decode(token))
  {
    BearerToken(scheme, token);
    assert code + "=" + token == code + ['='] + token;
    SplitPair(code, '=', token);
  }

  /** A verified token whose record is missing or holds anything else is
      refused with "Please login again", whatever its signature. */
  lemma StaleSessionRefused(scheme: string, token: string, codec: Codec, cache: map<string, string>)
    requires ' ' !in scheme && ' ' !in token && token != ""
    requires codec.verify(token).Verified?
    requires var u := codec.decode(token);
      SessionRecordKey(u) !in cache || !Admits(u, cache[SessionRecordKey(u)], token)
    ensures Authenticate(Some(scheme + " " + token), codec, cache, None) == Refuse(MessageReply(401, LoginAgain))
  {
    BearerToken(scheme, token);
  }

  /** Sessions are revocable on the server: deleting the record of an
      admitted user, or overwriting it with another token, refuses the same
      request afterwards. */
  lemma RevokedSessionRefused(header: Option<string>, codec: Codec, cache: map<string, string>, other: string)
    requires Authenticate(header, codec, cache, None).Proceed?
    ensures var u := Authenticate(header, codec, cache, None).user;
      Authenticate(header, codec, cache - {SessionRecordKey(u)}, None) == Refuse(MessageReply(401, LoginAgain))
    ensures var u := Authenticate(header, codec, cache, None).user;
      u.role != Seller && other != cache[SessionKey(u.id)] ==>
      Authenticate(header, codec, cache[SessionKey(u.id) := other], None) == Refuse(MessageReply(401, LoginAgain))
  {
  }

  /** The seller case of the tests: the record under the seller's email is
      `validOTP=123456`, and the header `Bearer 123456` is admitted. */
  lemma SellerSessionByEmail(header: string, record: string, codec: Codec, cache: map<string, string>)
    requires header == "Bearer 123456" && record == "validOTP=123456"
    requires codec.verify("123456").Verified?
    requires codec.decode("123456").role == Seller
    requires codec.decode("123456").email in cache
    requires cache[codec.decode("123456").email] == record
    ensures Authenticate(Some(header), codec, cache, None) == Proceed(codec.decode("123456"))
  {
    var token := "123456";
    assert header == "Bearer" + " " + token;
    BearerToken("Bearer", token);
    assert record == "validOTP" + ['='] + token;
    SplitPair("validOTP", '=', token);
  }
}
