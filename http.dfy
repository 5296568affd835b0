/**
 * Both sides of an HTTP exchange: what an Express handler answers, and what a
 * dashboard component receives from `fetch`.
 */
module Http {
  import opened Js

  /** A handler's answer; `Error` is sent as `{ error: message }`. */
  datatype Reply<T> =
    | Ok(value: T)
    | Created(value: T)
    | NoContent
    | Error(status: int, message: string)
  {
    /** The status code sent with the answer. */
    function Status(): int
    {
      match this
      case Ok(_) => 200
      case Created(_) => 201
      case NoContent => 204
      case Error(status, _) => status
    }
  }

  /** The outcome of one `fetch` (or `axios` call) on the client: the promise
      rejected (or the body was not JSON), or a response with its `ok` flag
      and its decoded JSON body. */
  datatype Fetched<T> = NetworkError | Response(ok: bool, json: T)

  /** A decoded JSON body as the client sees it: an object, an array of
      objects, or a single primitive value. */
  datatype Json = JObject(o: JsObject) | JArray(items: seq<JsObject>) | JPrimitive(v: JsValue)

  /** `Array.isArray(data) ? data : []`. */
  function ArrayOrEmpty(data: Json): seq<JsObject>
  {
    if data.JArray? then data.items else []
  }

  /** A request a component sends. A body is the object handed to `fetch` or
      axios; `JSON.stringify` leaves out every property whose value is
      `Undefined`, so only the other properties reach the server. */
  datatype Request =
    | Get(url: string)
    | Post(url: string, body: JsObject)
    | Put(url: string, body: JsObject)
    | Delete(url: string)
}
