/**
 * `internal/adapters/api`: the HTTP handlers, from an already-bound request
 * to one response and at most one call into the print service.
 */
module Api {
  import opened Wrappers
  import opened Json
  import opened Core

  const StatusOK: int := 200
  const StatusBadRequest: int := 400
  const StatusInternalServerError: int := 500

  const InvalidBodyPrefix: string := "Invalid request body: "
  const MissingInputError: string := "Either 'text' or 'data' must be provided"
  const PrintFailedPrefix: string := "Print failed: "
  const PrintedMessage: string := "Print job completed successfully"

  /**
   * The outcome of `ShouldBindJSON` on the body: a binding error, or the
   * `text` field ("" when absent) and the `data` object (`None` when absent).
   */
  datatype PrintRequest =
    | BindFailed(bindError: Error)
    | Bound(text: string, data: Option<map<string, JsonValue>>)

  /** The JSON bodies the handlers write. */
  datatype Body =
    | ErrorResponse(error: string)
    | PrintResponse(success: bool, message: string)
    | HealthResponse(status: string)

  datatype Response = Response(status: int, body: Body)

  /** A call the handler makes into the print service. */
  datatype ServiceCall = PrintJSONCall(data: JsonValue) | PrintTextCall(text: string)

  /**
   * Everything one request did: the single response written, the service
   * calls made, and the texts that reached the printer.
   */
  datatype Exchange = Exchange(response: Response, calls: seq<ServiceCall>, printed: seq<string>)

  datatype Handler = Handler(service: PrintService)

  function NewHandler(service: PrintService): (h: Handler)
    ensures h.service == service
  {
    Handler(service)
  }

  /** `req.Data != nil && len(req.Data) > 0` */
  predicate HasData(data: Option<map<string, JsonValue>>) {
    data.Some? && |data.value| > 0
  }

  /**
   * Which service call a bound request leads to: a non-empty `data` object
   * wins over `text`; otherwise non-empty text is printed; otherwise none.
   */
  function Dispatch(text: string, data: Option<map<string, JsonValue>>): (c: Option<ServiceCall>)
    ensures HasData(data) ==> c == Some(PrintJSONCall(JObject(data.value)))
    ensures !HasData(data) && text != "" ==> c == Some(PrintTextCall(text))
    ensures c.None? <==> !HasData(data) && text == ""
  {
    if HasData(data) then Some(PrintJSONCall(JObject(data.value)))
    else if text != "" then Some(PrintTextCall(text))
    else None
  }

  /** Runs one service call. */
  function Invoke(service: PrintService, marshal: Marshaller, call: ServiceCall): Delegation {
    match call
    case PrintJSONCall(data) => PrintJSON(service, marshal, Some(data))
    case PrintTextCall(text) => PrintText(service, text)
  }

  /**
   * POST /print. A body that does not bind, or that has neither data nor
   * text, gives 400 and no service call. Otherwise exactly the dispatched
   * call is made; its error gives 500 "Print failed: <error>", and success
   * gives 200 with success=true.
   */
  function Print(h: Handler, marshal: Marshaller, req: PrintRequest): (x: Exchange)
    ensures |x.calls| <= 1
    ensures req.BindFailed? ==>
              x == Exchange(Response(StatusBadRequest, ErrorResponse(InvalidBodyPrefix + req.bindError)), [], [])
    ensures req.Bound? && Dispatch(req.text, req.data).None? ==>
              x == Exchange(Response(StatusBadRequest, ErrorResponse(MissingInputError)), [], [])
    ensures req.Bound? && Dispatch(req.text, req.data).Some? ==>
              var call := Dispatch(req.text, req.data).value;
              var d := Invoke(h.service, marshal, call);
              && x.calls == [call]
              && x.printed == d.printed
              && (d.outcome.Fail? ==>
                    x.response == Response(StatusInternalServerError, ErrorResponse(PrintFailedPrefix + d.outcome.error)))
              && (d.outcome.Pass? ==> x.response == Response(StatusOK, PrintResponse(true, PrintedMessage)))
    ensures x.calls == [] <==> x.response.status == StatusBadRequest
  {
    match req
    case BindFailed(e) =>
      Exchange(Response(StatusBadRequest, ErrorResponse(InvalidBodyPrefix + e)), [], [])
    case Bound(text, data) =>
      match Dispatch(text, data)
      case None =>
        Exchange(Response(StatusBadRequest, ErrorResponse(MissingInputError)), [], [])
      case Some(call) =>
        var d := Invoke(h.service, marshal, call);
        match d.outcome
        case Fail(e) =>
          Exchange(Response(StatusInternalServerError, ErrorResponse(PrintFailedPrefix + e)), [call], d.printed)
        case Pass =>
          Exchange(Response(StatusOK, PrintResponse(true, PrintedMessage)), [call], d.printed)
  }

  /** GET /health: always 200 with status "healthy". */
  function HealthCheck(h: Handler): (r: Response)
    ensures r.status == StatusOK && r.body == HealthResponse("healthy")
  {
    Response(StatusOK, HealthResponse("healthy"))
  }

  /** A non-empty data object is printed as JSON whatever `text` holds. */
  lemma DataTakesPrecedence(h: Handler, marshal: Marshaller, text: string, data: map<string, JsonValue>)
    requires |data| > 0
    ensures Print(h, marshal, Bound(text, Some(data))) == Print(h, marshal, Bound("", Some(data)))
    ensures Print(h, marshal, Bound(text, Some(data))).calls == [PrintJSONCall(JObject(data))]
    ensures marshal(JObject(data)).Success? ==>
              Print(h, marshal, Bound(text, Some(data))).printed == [marshal(JObject(data)).value]
  {
  }

  /**
   * Without data, non-empty text reaches the printer exactly once and
   * unchanged; the response is 200 exactly when the printer accepts it,
   * and otherwise 500 carrying the printer's error text.
   */
  lemma TextReachesPrinter(h: Handler, marshal: Marshaller, text: string, data: Option<map<string, JsonValue>>)
    requires !HasData(data) && text != ""
    ensures var x := Print(h, marshal, Bound(text, data));
            && x.calls == [PrintTextCall(text)]
            && x.printed == [text]
            && (x.response.status == StatusOK <==> h.service.printer(text).Pass?)
            && (h.service.printer(text).Fail? ==>
                  x.response.body == ErrorResponse(PrintFailedPrefix + h.service.printer(text).error))
  {
  }

  /** Nothing reaches the printer unless the request bound and carried data or text. */
  lemma NothingPrintedWithoutInput(h: Handler, marshal: Marshaller, req: PrintRequest)
    requires req.BindFailed? || (!HasData(req.data) && req.text == "")
    ensures Print(h, marshal, req).printed == [] && Print(h, marshal, req).response.status == StatusBadRequest
  {
  }

  /** Every exchange answers 200, 400 or 500, and 200 always carries the success body. */
  lemma StatusCodes(h: Handler, marshal: Marshaller, req: PrintRequest)
    ensures Print(h, marshal, req).response.status in {StatusOK, StatusBadRequest, StatusInternalServerError}
    ensures Print(h, marshal, req).response.status == StatusOK ==>
              Print(h, marshal, req).response.body == PrintResponse(true, PrintedMessage)
  {
  }
}
