/** The shape of an HTTP exchange as the plugin sees it.  The transport
    itself is outside the model: a reply is handed to the operation that
    would have received it. */
module Http {
  import opened Wrappers

  /** One request sent to the device. */
  datatype Request = Request(httpMethod: string, url: string)

  /** What undici's `request` gives back: a status and a body that can be
      read as text or parsed as JSON (the parse can fail with a message); or
      the request itself throws (timeout, connection refused). */
  datatype UndiciReply<T> =
    | UndiciResponse(statusCode: int, text: string, json: Result<T, string>)
    | UndiciThrew(message: string)

  /** What node-fetch gives back: the response URL, its status, the
      `JSON.stringify` of the response object and the JSON parse of its body;
      or the fetch itself throws. */
  datatype FetchReply<T> =
    | FetchResponse(url: string, status: int, serialized: string, json: Result<T, string>)
    | FetchThrew(message: string)

  /** node-fetch's `response.ok`. */
  predicate FetchOk(status: int) {
    200 <= status < 300
  }
}
