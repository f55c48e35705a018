/** `internal/adapters/printer` (mock): the stand-in printer that writes text to stdout. */
module Mock {
  import opened Wrappers

  /** The text goes to stdout (not modelled); the call never fails. */
  function MockPrintText(text: string): (r: Outcome<Error>)
    ensures r.Pass?
  {
    Pass
  }
}
