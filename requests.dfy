/**
 * The pieces of an Express request that the middleware of
 * backend/src/middleware/auth.js and backend/src/middleware/validation.js
 * read and write, and the result a middleware hands to `next`.
 *
 * A header, cookie or route parameter that is absent is the empty string,
 * which JavaScript treats as falsy in the same way as `undefined`.
 */
module Requests {
  import opened Seqs
  import Accounts
  import Profiles

  /**
   * A parsed JSON value. An object is its entries in the order of the JSON
   * text, a repeated key included each time it occurs. (`Object.entries`
   * lists integer-like keys first, in ascending order, and each key once;
   * reading a member by its key gives the same value either way.)
   */
  datatype Json =
    | JNull
    | JBool(b: bool)
    | JNumber(n: int)
    | JString(s: string)
    | JArray(items: seq<Json>)
    | JObject(entries: seq<(string, Json)>)

  /** JavaScript truthiness of a value that may be `undefined` (`None`). */
  predicate Truthy(v: Option<Json>) {
    match v
    case None => false
    case Some(JNull) => false
    case Some(JBool(b)) => b
    case Some(JNumber(n)) => n != 0
    case Some(JString(s)) => s != ""
    case Some(_) => true
  }

  /** The value of the last entry named `key` (a repeated key keeps its last value, as `JSON.parse` does). */
  function Lookup(entries: seq<(string, Json)>, key: string): (r: Option<Json>)
    ensures r.None? <==> forall i :: 0 <= i < |entries| ==> entries[i].0 != key
    ensures r.Some? ==> exists i :: 0 <= i < |entries| && entries[i] == (key, r.value)
  {
    if |entries| == 0 then None
    else if entries[|entries| - 1].0 == key then Some(entries[|entries| - 1].1)
    else Lookup(entries[..|entries| - 1], key)
  }

  /** `body[key]`: a member of an object, `undefined` for anything else. */
  function Member(body: Json, key: string): Option<Json> {
    if body.JObject? then Lookup(body.entries, key) else None
  }

  /** What a middleware passes to `next`: nothing, or an `ErrorResponse`. */
  datatype MiddlewareResult = Next | Err(status: nat, message: string)

  /** The `req.rateLimit` object that `tierBasedRateLimit` stores. */
  datatype RateLimit = RateLimit(limit: nat, userPlan: string)

  /** The `req.file` object of an upload. */
  datatype UploadedFile = UploadedFile(mimetype: string, size: nat)

  const NoUserMessage: string := "Access denied. No user found."

  /** The request fields the middleware reads and writes. */
  class Request {
    /** `req.headers.authorization`. */
    var authorization: string
    /** `req.cookies.token`. */
    var cookieToken: string
    var user: Accounts.User?
    var profile: Profiles.Profile?
    var rateLimit: Option<RateLimit>
    /** `req.requestCount`; no middleware of the model sets it. */
    var requestCount: Option<int>
    /** `req.params.id` and `req.params.userId`. */
    var paramId: string
    var paramUserId: string
    var body: Json
    var file: Option<UploadedFile>

    constructor (authorization: string, cookieToken: string, paramId: string, paramUserId: string, body: Json)
      ensures this.authorization == authorization && this.cookieToken == cookieToken
      ensures this.paramId == paramId && this.paramUserId == paramUserId && this.body == body
      ensures user == null && profile == null && rateLimit.None? && requestCount.None? && file.None?
    {
      this.authorization := authorization;
      this.cookieToken := cookieToken;
      this.paramId := paramId;
      this.paramUserId := paramUserId;
      this.body := body;
      user := null;
      profile := null;
      rateLimit := None;
      requestCount := None;
      file := None;
    }
  }
}
