/** Values shared by the middlewares and controllers: optional values, the
    outcome of a call that may throw, JSON values and HTTP replies. */
module Common {

  /** A value that may be absent (`null` or `undefined` on the JavaScript side). */
  datatype Option<+T> = None | Some(value: T)

  /** The result of an awaited call into a collaborator (database, cache,
      search service): either it resolved with a value, or it threw (the
      promise rejected) with an error message. */
  datatype Attempt<+T> = Ok(value: T) | Threw(message: string)

  /** A JSON value as `res.json` serialises it. */
  datatype Json =
    | JNull
    | JBool(b: bool)
    | JNum(n: real)
    | JStr(s: string)
    | JArr(items: seq<Json>)
    | JObj(fields: map<string, Json>)

  /** What a handler sends: `res.status(status).json(body)`. */
  datatype Reply = Reply(status: nat, body: map<string, Json>)

  /** `res.status(status).json({ message })`. */
  function MessageReply(status: nat, message: string): Reply
  {
    Reply(status, map["message" := JStr(message)])
  }
}
