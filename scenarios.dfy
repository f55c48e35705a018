/**
 * The cases of the service and handler tests, stated over the model: the
 * service and handler wired to the stdout printer or to a printer that
 * fails.
 */
module Scenarios {
  import opened Wrappers
  import opened Json
  import opened Core
  import opened Api
  import opened Mock

  /** A printer that fails every call with the given error. */
  function FailingPrinter(e: Error): Printer {
    _ => Fail(e)
  }

  /** Over the stdout printer, every non-empty text is printed once and succeeds. */
  lemma MockServicePrintsText(text: string)
    requires text != ""
    ensures PrintText(NewPrintService(MockPrintText), text) == Delegation(Pass, [text])
  {
  }

  /** The printer's "printer offline" comes back from the service word for word. */
  lemma PrinterErrorPropagated()
    ensures PrintText(NewPrintService(FailingPrinter("printer offline")), "Test text")
            == Delegation(Fail("printer offline"), ["Test text"])
  {
  }

  /**
   * A request carrying both text and data prints the marshalled data and
   * answers 200 with the success body.
   */
  lemma DataOverTextOnMock(marshal: Marshaller)
    requires marshal(JObject(map["message" := JString("Only this will be printed")]))
             == Success("{\n  \"message\": \"Only this will be printed\"\n}")
    ensures var x := Print(NewHandler(NewPrintService(MockPrintText)), marshal,
                           Bound("This will be ignored", Some(map["message" := JString("Only this will be printed")])));
            && x.printed == ["{\n  \"message\": \"Only this will be printed\"\n}"]
            && x.response == Response(StatusOK, PrintResponse(true, "Print job completed successfully"))
  {
    var data := map["message" := JString("Only this will be printed")];
    assert "message" in data && |data| > 0;
  }

  /** A printer failure on POST /print answers 500 "Print failed: printer offline". */
  lemma PrinterFailureIs500(marshal: Marshaller)
    ensures Print(NewHandler(NewPrintService(FailingPrinter("printer offline"))), marshal, Bound("Test", None)).response
            == Response(StatusInternalServerError, ErrorResponse("Print failed: printer offline"))
  {
    assert PrintFailedPrefix + "printer offline" == "Print failed: printer offline";
  }

  /** An empty body `{}` answers 400 and prints nothing. */
  lemma EmptyBodyIs400(marshal: Marshaller)
    ensures Print(NewHandler(NewPrintService(MockPrintText)), marshal, Bound("", None))
            == Exchange(Response(StatusBadRequest, ErrorResponse("Either 'text' or 'data' must be provided")), [], [])
  {
  }
}
