/**
 * What the appointment dialogs share: the requests they send, the replies they
 * get back, and the visible effects of a handler (requests, toasts, closing the
 * dialog, telling the parent, reloading the page), kept in the order they happen.
 */
module ClientEffects {
  import opened JsValues

  /** The three things a nurse can do with an appointment. */
  datatype Action = LabRequest | ReferDoctor | Diagnose

  /** One `fetch`: its HTTP method, its path and its JSON body (`Undefined` for a `GET`). */
  datatype Request = Request(verb: string, path: string, body: Value)

  /**
   * The outcome of one `fetch`: `response.ok` with the parsed body, or not ok
   * with the parsed body, which every route here sends as an `{ error }` object.
   */
  datatype Reply = Succeeded(data: Value) | Failed(error: map<string, Value>)

  /**
   * A toast. `Crashed` is a `TypeError` raised while reading a reply, whose
   * message text is the JavaScript engine's own.
   */
  datatype Notice = Success(text: string) | Failure(text: string) | Crashed

  datatype Effect =
    | Fetch(request: Request)
    | Toast(notice: Notice)
    | CloseDialog   // `onOpenChange(false)` / `setOpen(false)`
    | NotifyParent  // the parent's `onSuccess()`
    | ReloadPage    // `window.location.reload()`

  /** The requests of a handler, each as an effect, in order. */
  function FetchAll(requests: seq<Request>): (es: seq<Effect>)
    ensures |es| == |requests|
    ensures forall i :: 0 <= i < |es| ==> es[i] == Fetch(requests[i])
  {
    seq(|requests|, i requires 0 <= i < |requests| => Fetch(requests[i]))
  }

  /**
   * The toast text of `throw new Error(body.message || fallback)` caught by
   * `toast.error(error.message || outer)`: `new Error(x)` keeps `String(x)`.
   */
  function ThrownText(error: map<string, Value>, fallback: string, outer: string): (t: string)
    // an error body without a `message` (every route's `{ error }`) shows the fallback
    ensures "message" !in error && fallback != "" ==> t == fallback
    ensures "message" in error && error["message"].Str? && error["message"].s != "" ==> t == error["message"].s
    ensures outer != "" ==> t != ""
  {
    var m := ToJsString(Or(Field(Obj(error), "message"), Str(fallback)));
    if m == "" then outer else m
  }

  /** The body of a route's error response, `NextResponse.json({ error })`. */
  function RouteError(message: string): map<string, Value> {
    map["error" := Str(message)]
  }
}
