/**
 * The print service of `internal/core`: it guards its inputs and delegates
 * to the Printer port. Nothing here changes state; each call reports the
 * error it returns and the texts it handed to the printer.
 */
module Core {
  import opened Wrappers
  import opened Json

  /**
   * The Printer port: `PrintText(text string) error`. Any adapter (the
   * stdout stand-in, the BLE driver) is seen by the service only through
   * the outcome it gives for a text.
   */
  type Printer = string -> Outcome<Error>

  /** `json.MarshalIndent(data, "", "  ")`: the indented encoding, or an error. */
  type Marshaller = JsonValue -> Result<string, Error>

  const EmptyTextError: Error := "text cannot be empty"
  const NilDataError: Error := "data cannot be nil"
  const MarshalErrorPrefix: string := "failed to marshal JSON: "

  /** The service holds one printer, fixed at construction. */
  datatype PrintService = PrintService(printer: Printer)

  /**
   * What one service call did: the error it returned, and the texts it
   * passed to the printer, in call order.
   */
  datatype Delegation = Delegation(outcome: Outcome<Error>, printed: seq<string>)

  /**
   * The printer given is the one every later call uses. Operations return a
   * Delegation, never a new service, so no operation can replace it.
   */
  function NewPrintService(printer: Printer): (s: PrintService)
    ensures s.printer == printer
  {
    PrintService(printer)
  }

  /**
   * Empty text is refused without reaching the printer; any other text is
   * passed to the printer once, and its error (or nil) comes back unchanged.
   */
  function PrintText(s: PrintService, text: string): (d: Delegation)
    ensures |d.printed| <= 1 && forall t <- d.printed :: t == text
    ensures d.printed == [] <==> text == ""
    ensures text == "" ==> d.outcome == Fail(EmptyTextError)
    ensures text != "" ==> d.outcome == s.printer(text)
    ensures d.outcome.Pass? <==> text != "" && s.printer(text).Pass?
  {
    if text == "" then
      Delegation(Fail(EmptyTextError), [])
    else
      Delegation(s.printer(text), [text])
  }

  /**
   * A nil value is refused; otherwise the value is marshalled with
   * two-space indentation. A marshalling error is returned wrapped and
   * nothing is printed; on success the printer receives exactly the
   * marshalled text, once, and its error comes back unchanged.
   * `data` is `None` for Go's untyped nil interface.
   */
  function PrintJSON(s: PrintService, marshal: Marshaller, data: Option<JsonValue>): (d: Delegation)
    ensures |d.printed| <= 1
    ensures data.None? ==> d == Delegation(Fail(NilDataError), [])
    ensures data.Some? && marshal(data.value).Failure? ==>
              d == Delegation(Fail(MarshalErrorPrefix + marshal(data.value).error), [])
    ensures data.Some? && marshal(data.value).Success? ==>
              d.printed == [marshal(data.value).value] && d.outcome == s.printer(marshal(data.value).value)
    ensures d.printed != [] <==> data.Some? && marshal(data.value).Success?
  {
    match data
    case None => Delegation(Fail(NilDataError), [])
    case Some(v) =>
      match marshal(v)
      case Failure(e) => Delegation(Fail(MarshalErrorPrefix + e), [])
      case Success(json) => Delegation(s.printer(json), [json])
  }

  /**
   * PrintJSON is PrintText applied to the marshalled text, except that it
   * skips the empty-text guard: an empty encoding would still reach the
   * printer (encoding/json never produces one).
   */
  lemma PrintJSONIsPrintTextOfEncoding(s: PrintService, marshal: Marshaller, v: JsonValue)
    requires marshal(v).Success?
    ensures marshal(v).value != "" ==> PrintJSON(s, marshal, Some(v)) == PrintText(s, marshal(v).value)
    ensures marshal(v).value == "" ==> PrintJSON(s, marshal, Some(v)).printed == [""]
  {
  }
}
