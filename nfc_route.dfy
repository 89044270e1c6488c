/**
 * The NFC proxy route (app/api/nfc/route.ts): how the answer of the Flask
 * relay, or the exception thrown while asking it, becomes the JSON and the
 * status code the browser gets (503 Service Unavailable and 504 Gateway
 * Timeout as section 15.6 of RFC 9110 defines them).
 */
module NfcRoute {
  import opened Js
  import opened Text

  /** What `instanceof` can tell about a thrown value: not an Error at all,
      a TypeError (which is always an Error too), or another Error. */
  datatype ErrorClass = NotAnError | TypeError | OtherError

  /** An exception as the route's catch block inspects it. */
  datatype Thrown = Thrown(errorClass: ErrorClass, name: string, message: string) {
    predicate IsTypeError() { errorClass == TypeError }
    predicate IsError() { errorClass != NotAnError }
  }

  /** What `fetch` and `response.json()` produce: an answer with its `ok`
      flag, status and parsed JSON object, or an exception. */
  datatype Upstream = Answered(ok: bool, status: int, data: Body) | Failed(error: Thrown)

  /** The JSON object the route answers with; Undefined marks a field the
      route does not send. */
  datatype ProxyBody = ProxyBody(
    error: JsVal, message: JsVal, tagDetected: JsVal, connectionStatus: JsVal,
    details: JsVal, timestamp: JsVal, upstreamStatus: JsVal, position: JsVal)

  datatype ProxyReply = ProxyReply(status: int, body: ProxyBody)

  /** The relay reports that it could not reach the Pico W. */
  predicate PicoDown(data: Body) {
    Field(data, "connectionStatus") == Str("disconnected") || Field(data, "connectionStatus") == Str("error")
  }

  predicate FetchFailed(e: Thrown) {
    e.IsTypeError() && Contains(e.message, "fetch failed")
  }

  function UpstreamError(status: int): ProxyReply {
    ProxyReply(500, ProxyBody(Str("Server error"), Str("Fout bij verbinding met server"), Undefined, Undefined,
                              Undefined, Undefined, Num(status), Undefined))
  }

  function PicoError(data: Body): ProxyReply {
    ProxyReply(503, ProxyBody(Or(Field(data, "error"), Str("Pico W error")),
                              Or(Field(data, "message"), Str("Fout bij verbinding met Pico W")),
                              Bool(false), Str("error"),
                              Or(Field(data, "details"), Str("Geen verbinding met Pico W mogelijk")),
                              Undefined, Undefined, Undefined))
  }

  function Success(data: Body): ProxyReply {
    ProxyReply(200, ProxyBody(Undefined,
                              Or(Field(data, "message"), Str("NFC status opgehaald")),
                              Or(Field(data, "tag_detected"), Bool(false)),
                              Or(Field(data, "connectionStatus"), Str("connected")),
                              Or(Field(data, "details"), Str("Success")),
                              Field(data, "timestamp"), Undefined, Undefined))
  }

  const ConnectionError := ProxyReply(503, ProxyBody(Str("Connection error"), Str("Kan geen verbinding maken met server"),
                                                     Bool(false), Str("error"),
                                                     Str("Server is mogelijk niet gestart of niet bereikbaar"),
                                                     Undefined, Undefined, Undefined))

  const TimeoutReply := ProxyReply(504, ProxyBody(Str("Timeout"), Str("Verbinding met server verlopen"),
                                                  Bool(false), Str("timeout"),
                                                  Str("Server reageert niet binnen de gestelde tijd"),
                                                  Undefined, Undefined, Undefined))

  function UnknownError(e: Thrown): ProxyReply {
    ProxyReply(500, ProxyBody(Str("Unknown error"), Str("Onbekende fout opgetreden"), Bool(false), Str("error"),
                              Str(if e.IsError() then e.message else "Unknown error"), Undefined, Undefined, Undefined))
  }

  /** The route as written: only an exception named "AbortError" is a timeout. */
  function GetAsWritten(u: Upstream): (r: ProxyReply)
    ensures r.status in {200, 500, 503, 504}
    ensures r.status == 200 <==> u.Answered? && u.ok && !PicoDown(u.data)
    ensures r.status == 504 <==> u.Failed? && !FetchFailed(u.error) && u.error.IsError() && u.error.name == "AbortError"
    ensures u.Answered? && !u.ok ==> r.status == 500 && r.body.upstreamStatus == Num(u.status)
    ensures r.status == 503 ==> r.body.tagDetected == Bool(false) && r.body.connectionStatus == Str("error")
    ensures r.status != 200 ==> r.body.tagDetected in {Undefined, Bool(false)}
    ensures r.body.position == Undefined
    ensures u.Answered? && !u.ok ==> r == UpstreamError(u.status)
    ensures u.Answered? && u.ok && PicoDown(u.data) ==> r == PicoError(u.data)
    ensures u.Answered? && u.ok && !PicoDown(u.data) ==> r == Success(u.data)
    ensures u.Failed? && FetchFailed(u.error) ==> r == ConnectionError
    ensures u.Failed? && !FetchFailed(u.error) && u.error.IsError() && u.error.name == "AbortError" ==> r == TimeoutReply
    ensures u.Failed? && !FetchFailed(u.error) && !(u.error.IsError() && u.error.name == "AbortError") ==>
              r == UnknownError(u.error)
  {
    match u
    case Answered(ok, status, data) =>
      if !ok then UpstreamError(status)
      else if PicoDown(data) then PicoError(data)
      else Success(data)
    case Failed(e) =>
      if FetchFailed(e) then ConnectionError
      else if e.IsError() && e.name == "AbortError" then TimeoutReply
      else UnknownError(e)
  }

  /** A successful answer forwards the relay's tag flag and timestamp with
      defaults for the rest, and never the position. */
  lemma SuccessForwards(ok: bool, status: int, data: Body)
    requires ok && !PicoDown(data)
    ensures var r := GetAsWritten(Answered(ok, status, data));
            r.status == 200
            && (Truthy(Field(data, "tag_detected")) ==> r.body.tagDetected == Field(data, "tag_detected"))
            && (!Truthy(Field(data, "tag_detected")) ==> r.body.tagDetected == Bool(false))
            && r.body.timestamp == Field(data, "timestamp")
            && (!Truthy(Field(data, "connectionStatus")) ==> r.body.connectionStatus == Str("connected"))
            && (!Truthy(Field(data, "message")) ==> r.body.message == Str("NFC status opgehaald"))
            && (!Truthy(Field(data, "details")) ==> r.body.details == Str("Success"))
            && r.body.position == Undefined
  {
  }

  /** `AbortSignal.timeout(5000)` aborts the fetch with a DOMException named
      "TimeoutError" (an Error, not a TypeError). */
  function TimeoutException(message: string): Thrown {
    Thrown(OtherError, "TimeoutError", message)
  }

  /** As written, a timed-out request is answered as an unknown error (500),
      never with the 504 the timeout branch is there for. */
  lemma TimeoutAnsweredAsUnknown(message: string)
    ensures GetAsWritten(Failed(TimeoutException(message))).status == 500
    ensures GetAsWritten(Failed(TimeoutException(message))).body.connectionStatus == Str("error")
  {
  }

  predicate IsTimeout(e: Thrown) {
    e.IsError() && (e.name == "AbortError" || e.name == "TimeoutError")
  }

  /** The route as intended: an exception from the fetch's own timeout is a
      timeout too. Everything else is answered as written. */
  function Get(u: Upstream): (r: ProxyReply)
    ensures r.status in {200, 500, 503, 504}
    ensures r.status == 504 <==> u.Failed? && !FetchFailed(u.error) && IsTimeout(u.error)
    ensures !(u.Failed? && u.error.name == "TimeoutError") ==> r == GetAsWritten(u)
    ensures u.Failed? && !FetchFailed(u.error) && IsTimeout(u.error) ==> r == TimeoutReply
    ensures u.Failed? && !FetchFailed(u.error) && !IsTimeout(u.error) ==> r == UnknownError(u.error)
    ensures r.body.position == Undefined
  {
    match u
    case Failed(e) =>
      if !FetchFailed(e) && IsTimeout(e) then TimeoutReply else GetAsWritten(u)
    case Answered(_, _, _) => GetAsWritten(u)
  }

  /** With the correction, the fetch's own timeout gives 504 and "timeout". */
  lemma TimeoutAnsweredAsTimeout(message: string)
    ensures Get(Failed(TimeoutException(message))) == TimeoutReply
    ensures TimeoutReply.status == 504 && TimeoutReply.body.connectionStatus == Str("timeout")
  {
    assert !FetchFailed(TimeoutException(message));
  }
}
