/** `twofaVerifyOtp`: completes a seller's login. The pending record cached
    under the seller's email holds `code=token`; a matching code consumes the
    record and promotes the token to a session stored under `user:<id>` for
    24 hours. */
module OtpVerify {
  import opened Common
  import opened Strings
  import opened Tokens
  import AuthMiddleware

  /** Lifetime of a promoted session, in seconds (24 hours). */
  const SessionTtl: nat := 86400

  const OtpNotFound := "OTP token not found"
  const InvalidOtp := "Invalid One Time Password"
  const LoginSuccessful := "Login successful"
  const InternalError := "Internal server error"

  /** A call the handler makes to the cache or to `decodeToken`. */
  datatype Call =
    | CacheGet(key: string)
    | CacheDel(key: string)
    | DecodeToken(token: string)
    | CacheSetEx(key: string, ttl: nat, value: string)

  /** The cache as the handler sees it: its entries, the time-to-live recorded
      for each key that has one, and whether the server fails calls (with the
      error it throws). */
  datatype Store = Store(entries: map<string, string>, ttls: map<string, nat>, failure: Option<string>)

  /** What one verification does: the reply, the cache afterwards and the
      calls made, in order. */
  datatype Outcome = Outcome(reply: Reply, store: Store, calls: seq<Call>)

  /** The code of a pending record: the part before the first `=`. */
  function PendingCode(record: string): string
  {
    Split(record, '=')[0]
  }

  /** The pending token of a record, `record.split('=')[1]`; a record without
      `=` has none, and the empty string stands for it. */
  function PendingToken(record: string): string
  {
    match Part(record, '=', 1)
    case Some(t) => t
    case None => ""
  }

  function SuccessReply(token: string): Reply
  {
    Reply(200, map["jwt" := JStr(token), "message" := JStr(LoginSuccessful)])
  }

  /** One verification of `otp` for `email`, as a state transition of the cache. */
  function VerifyOtp(store: Store, email: string, otp: string, decode: string -> Identity): Outcome
  {
    if store.failure.Some? then Outcome(MessageReply(500, InternalError), store, [CacheGet(email)])
    else if email !in store.entries then Outcome(MessageReply(404, OtpNotFound), store, [CacheGet(email)])
    else
      var record := store.entries[email];
      if PendingCode(record) != otp then Outcome(MessageReply(406, InvalidOtp), store, [CacheGet(email)])
      else
        var token := PendingToken(record);
        var key := SessionKey(decode(token).id);
        var after := Store((store.entries - {email})[key := token], (store.ttls - {email})[key := SessionTtl], store.failure);
        Outcome(SuccessReply(token), after,
                [CacheGet(email), CacheDel(email), DecodeToken(token), CacheSetEx(key, SessionTtl, token)])
  }

  /** The cache client (`redisClient`). */
  class Redis {
    var entries: map<string, string>
    var ttls: map<string, nat>
    /** `Some(e)`: the server is unreachable and every call throws `e`. */
    var failure: Option<string>

    function State(): Store
      reads this
    {
      Store(entries, ttls, failure)
    }

    constructor (entries: map<string, string>, failure: Option<string>)
      ensures State() == Store(entries, map[], failure)
    {
      this.entries, this.ttls, this.failure := entries, map[], failure;
    }

    /** `get(key)`: the value, `null` when the key is absent, or a throw. */
    method Get(key: string) returns (r: Attempt<Option<string>>)
      ensures failure.Some? ==> r == Threw(failure.value)
      ensures failure == None ==> r.Ok? && (r.value.Some? <==> key in entries)
      ensures failure == None && key in entries ==> r.value.value == entries[key]
    {
      if failure.Some? {
        r := Threw(failure.value);
      } else if key in entries {
        r := Ok(Some(entries[key]));
      } else {
        r := Ok(None);
      }
    }

    /** `del(key)`: removes the key and its time-to-live. */
    method Del(key: string)
      requires failure == None
      modifies this
      ensures entries == old(entries) - {key} && ttls == old(ttls) - {key} && failure == old(failure)
    {
      entries := entries - {key};
      ttls := ttls - {key};
    }

    /** `setEx(key, ttl, value)`: stores the value with a time-to-live. */
    method SetEx(key: string, ttl: nat, value: string)
      requires failure == None
      modifies this
      ensures entries == old(entries)[key := value] && ttls == old(ttls)[key := ttl] && failure == old(failure)
    {
      entries := entries[key := value];
      ttls := ttls[key := ttl];
    }
  }

  /** The handler over the cache client: one read, and on a match a delete of
      the pending record, a decode and a write of the session record. It
      returns the reply and the calls it made. */
  method TwofaVerifyOtp(redis: Redis, email: string, otp: string, decode: string -> Identity)
    returns (reply: Reply, calls: seq<Call>)
    modifies redis
    ensures reply == VerifyOtp(old(redis.State()), email, otp, decode).reply
    ensures calls == VerifyOtp(old(redis.State()), email, otp, decode).calls
    ensures redis.State() == VerifyOtp(old(redis.State()), email, otp, decode).store
  {
    calls := [CacheGet(email)];
    var found := redis.Get(email);
    if found.Threw? {
      reply := MessageReply(500, InternalError);
      return;
    }
    if found.value == None {
      reply := MessageReply(404, OtpNotFound);
      return;
    }
    var token := PendingToken(found.value.value);
    if PendingCode(found.value.value) != otp {
      reply := MessageReply(406, InvalidOtp);
      return;
    }
    redis.Del(email);
    calls := calls + [CacheDel(email)];
    calls := calls + [DecodeToken(token)];
    var user := decode(token);
    var key := SessionKey(user.id);
    redis.SetEx(key, SessionTtl, token);
    calls := calls + [CacheSetEx(key, SessionTtl, token)];
    reply := SuccessReply(token);
  }

  /** A cache read that throws gives 500 and changes nothing. */
  lemma ReadFailure(store: Store, email: string, otp: string, decode: string -> Identity)
    requires store.failure.Some?
    ensures VerifyOtp(store, email, otp, decode) == Outcome(MessageReply(500, InternalError), store, [CacheGet(email)])
  {
  }

  /** No pending record: 404, and nothing is deleted or written. */
  lemma MissingRecord(store: Store, email: string, otp: string, decode: string -> Identity)
    requires store.failure == None && email !in store.entries
    ensures VerifyOtp(store, email, otp, decode) == Outcome(MessageReply(404, OtpNotFound), store, [CacheGet(email)])
  {
  }

  /** A wrong code gives 406 after a read alone; the pending record stays, so
      a second wrong submission gets the same answer. */
  lemma WrongCodeKeepsRecord(store: Store, email: string, otp: string, decode: string -> Identity)
    requires store.failure == None && email in store.entries
    requires PendingCode(store.entries[email]) != otp
    ensures VerifyOtp(store, email, otp, decode) == Outcome(MessageReply(406, InvalidOtp), store, [CacheGet(email)])
    ensures var again := VerifyOtp(VerifyOtp(store, email, otp, decode).store, email, otp, decode);
      again == VerifyOtp(store, email, otp, decode)
  {
  }

  /** The record `9876=token123` refuses the code `1234`. */
  lemma WrongCodeExample(store: Store, email: string, otp: string, decode: string -> Identity)
    requires store.failure == None && email in store.entries
    requires store.entries[email] == "9876=token123" && otp == "1234"
    ensures VerifyOtp(store, email, otp, decode).reply == MessageReply(406, InvalidOtp)
  {
    var code, token := "9876", "token123";
    assert store.entries[email] == code + ['='] + token;
    SplitPair(code, '=', token);
  }

  /** Round trip: for a record `code=token` (neither part holding `=`),
      submitting `code` answers 200 with exactly `token`; the calls are the
      read, the delete of the email key, the decode of `token` and the write
      of `user:<id>` with a 24-hour lifetime; afterwards the pending record is
      gone and the session record holds `token`. */
  lemma {:induction false} RoundTrip(store: Store, email: string, code: string, token: string, decode: string -> Identity)
    requires store.failure == None && '=' !in code && '=' !in token
    requires email in store.entries && store.entries[email] == code + "=" + token
    ensures var o := VerifyOtp(store, email, code, decode);
      var key := SessionKey(decode(token).id);
      o.reply == SuccessReply(token) &&
      o.calls == [CacheGet(email), CacheDel(email), DecodeToken(token), CacheSetEx(key, SessionTtl, token)] &&
      o.store.entries == (store.entries - {email})[key := token] &&
      (key != email ==> email !in o.store.entries) &&
      key in o.store.ttls && o.store.ttls[key] == SessionTtl
  {
    assert code + "=" + token == code + ['='] + token;
    SplitPair(code, '=', token);
  }

  /** The case of the tests: record `1234=token123`, code `1234`, a token
      that decodes to id `123`. */
  lemma SuccessExample(store: Store, email: string, otp: string, decode: string -> Identity)
    requires store.failure == None && email in store.entries
    requires store.entries[email] == "1234=token123" && otp == "1234"
    requires decode("token123").id == "123"
    ensures var o := VerifyOtp(store, email, otp, decode);
      o.reply == Reply(200, map["jwt" := JStr("token123"), "message" := JStr(LoginSuccessful)]) &&
      o.calls == [CacheGet(email), CacheDel(email), DecodeToken("token123"), CacheSetEx("user:123", 86400, "token123")]
  {
    RoundTrip(store, email, "1234", "token123", decode);
    assert SessionKey(decode("token123").id) == "user:123";
  }

  /** Only a successful verification changes the cache or calls anything but
      the read. */
  lemma OnlySuccessChangesCache(store: Store, email: string, otp: string, decode: string -> Identity)
    ensures var o := VerifyOtp(store, email, otp, decode);
      o.reply.status != 200 ==> o.store == store && o.calls == [CacheGet(email)]
  {
  }

  /** Single use: after a successful verification the pending record is gone,
      so any later submission for the email (the same code included) gets
      404 rather than 406. The email must not itself be a session key. */
  lemma SingleUse(store: Store, email: string, otp: string, again: string, decode: string -> Identity)
    requires forall id :: SessionKey(id) != email
    requires VerifyOtp(store, email, otp, decode).reply.status == 200
    ensures var o := VerifyOtp(store, email, otp, decode);
      VerifyOtp(o.store, email, again, decode).reply == MessageReply(404, OtpNotFound)
  {
  }

  /** The promoted token opens HTTP sessions: for a user who is not a seller,
      the session validator admits `Bearer <token>` against the cache after
      verification. (For a seller the validator reads the email key, which
      verification has just deleted.) */
  lemma PromotedSessionAdmitted(store: Store, email: string, code: string, token: string, codec: Codec)
    requires store.failure == None && '=' !in code && '=' !in token && ' ' !in token && token != ""
    requires email in store.entries && store.entries[email] == code + "=" + token
    requires codec.verify(token).Verified? && codec.decode(token).role != Seller
    ensures var o := VerifyOtp(store, email, code, codec.decode);
      AuthMiddleware.Authenticate(Some("Bearer " + token), codec, o.store.entries, o.store.failure) ==
        AuthMiddleware.Proceed(codec.decode(token))
  {
    RoundTrip(store, email, code, token, codec.decode);
    assert "Bearer " + token == "Bearer" + " " + token;
    var o := VerifyOtp(store, email, code, codec.decode);
    AuthMiddleware.LiveSessionAdmitted("Bearer", token, codec, o.store.entries);
  }

  /** For a seller the promoted token does not open HTTP sessions: the
      validator looks for the seller's record under the email, and the
      verification has just deleted it. The email must be the seller's own
      and not itself a session key. */
  lemma PromotedSellerSessionRefused(store: Store, email: string, code: string, token: string, codec: Codec)
    requires store.failure == None && '=' !in code && '=' !in token && ' ' !in token && token != ""
    requires email in store.entries && store.entries[email] == code + "=" + token
    requires codec.verify(token).Verified? && codec.decode(token).role == Seller
    requires codec.decode(token).email == email && SessionKey(codec.decode(token).id) != email
    ensures var o := VerifyOtp(store, email, code, codec.decode);
      AuthMiddleware.Authenticate(Some("Bearer " + token), codec, o.store.entries, o.store.failure) ==
        AuthMiddleware.Refuse(MessageReply(401, AuthMiddleware.LoginAgain))
  {
    RoundTrip(store, email, code, token, codec.decode);
    assert "Bearer " + token == "Bearer" + " " + token;
    var o := VerifyOtp(store, email, code, codec.decode);
    AuthMiddleware.StaleSessionRefused("Bearer", token, codec, o.store.entries);
  }
}
