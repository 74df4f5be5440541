/** The JSON replies of the Cobalt-compatible API that the web interface reads:
    a `status` discriminator with the fields each status carries. Fields the
    interface never reads are not represented. */
module Responses {
  import opened Wrappers

  /** `error.context`: the service that failed and a numeric limit. */
  datatype ErrorContext = ErrorContext(service: Option<string>, limit: Option<int>)

  /** `error`: a Cobalt error code and its optional context. A reply whose
      `error` is a plain string reads like `ApiError(None, None)`, since the
      interface only reads `error.code` and `error.context`. */
  datatype ApiError = ApiError(code: Option<string>, context: Option<ErrorContext>)

  /** One entry of a `picker` reply; `kind` is the JSON field `type`. */
  datatype PickerItem = PickerItem(url: Option<string>, filename: Option<string>, kind: Option<string>)

  /** A reply object. `status` is one of `tunnel`, `redirect`, `picker`,
      `local-processing` and `error` for a well-formed reply. */
  datatype Reply = Reply(
    status: Option<string>,
    url: Option<string>,
    filename: Option<string>,
    picker: Option<seq<PickerItem>>,
    audio: Option<string>,
    audioFilename: Option<string>,
    error: Option<ApiError>)

  /** The value `response.json()` yields: JSON `null` or a reply object. */
  datatype Json = Null | Object(reply: Reply)

  /** A JSON-like option value as the request builder sees it: `undefined`
      (a key whose value is absent), `null`, a string, a boolean or a number
      (integral numbers only). */
  datatype JsValue = Undefined | JsNull | Str(s: string) | Bool(b: bool) | Num(n: int)

  /** JavaScript truthiness of a value (`value || fallback`). */
  predicate JsTruthy(v: JsValue) {
    match v
    case Undefined => false
    case JsNull => false
    case Str(s) => s != ""
    case Bool(b) => b
    case Num(n) => n != 0
  }

  /** `value !== '' && value !== null && value !== undefined`. */
  predicate Present(v: JsValue) {
    v != Str("") && v != JsNull && v != Undefined
  }

  /** An HTTP reply as `fetch` delivers it: the status line, the
      `Retry-After` header (`None` is `headers.get` returning `null`) and the
      body `response.json()` would parse. */
  datatype HttpReply<T> = HttpReply(status: int, statusText: string, retryAfter: Option<string>, body: T)

  /** `response.ok`: a status in the range 200-299. */
  predicate OkStatus<T>(r: HttpReply<T>) {
    200 <= r.status <= 299
  }

  /** A reply with only a status and a download link. */
  function LinkReply(status: string, url: Option<string>, filename: Option<string>): Reply {
    Reply(Some(status), url, filename, None, None, None, None)
  }
}
