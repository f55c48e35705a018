# Peripage printer server: a Dafny model of its print path

This project models the parts of the Peripage printer server that decide
what gets printed and what the caller is told:

- the **print service** (`internal/core`), which refuses empty text and nil
  data and otherwise hands exactly one text to the Printer port;
- the **configuration loader** (`internal/config`), which reads environment
  variables with defaults and validates the printer type and device name;
- the **HTTP handlers** (`internal/adapters/api`), which turn a bound
  request into one response and at most one service call;
- the **BLE printer adapter** (`internal/adapters/printer/ble.go`), whose
  optional connected device is set by `Connect` and cleared by
  `Disconnect`, and whose rendering and transport are placeholders that
  always fail;
- the **stdout printer** (`internal/adapters/printer/mock.go`), which
  always succeeds.

The service, configuration and handler code only compute values, so they
are datatypes and functions. Each call returns a record of what it did:
a service call returns its error and the texts it passed to the printer,
and a handler call returns its one response, the service calls it made and
the printed texts. That is how "no printer call" and "exactly once" are
stated. The BLE adapter changes its `device` field in place, so it is a
class. `Connect` and `Disconnect` are methods with `modifies this`device`.
The scan callback's step-by-step update of `found` and `foundDevice` is a
loop (`MatchAdvertisements`), proved against the specification function
`FirstMatch`.

Calls into code outside the repository are parameters:

- the Printer port is a function from a text to an outcome;
- `json.MarshalIndent` is a function from a JSON value to a text or an error;
- `time.ParseDuration` is a partial function from a text to a duration;
- the environment is a `map<string, string>`;
- gin's JSON binding is already done: a request is either a binding error
  or its text and data;
- each Bluetooth call (enable, scan start, link connect, device disconnect)
  is an outcome parameter;
- the advertisements a scan reports before its timeout are a finite sequence.

Go `error` values are modelled by their `Error()` text. `time.Duration` is
an integer number of nanoseconds.

Files: `wrappers.dfy` (Option, Result, Outcome), `json.dfy`, `time.dfy`,
`core.dfy`, `config.dfy`, `api.dfy`, `ble.dfy`, `mock.dfy`, and
`scenarios.dfy` (the unit-test cases restated as lemmas).

## Model

| member | source | states |
|---|---|---|
| `Core.NewPrintService` | internal/core/service.go:15-19 | The service holds exactly the printer it was given. Operations return a record of what they did, never a new service, so no operation replaces the printer. |
| `Core.PrintText` | internal/core/service.go:22-27 | Empty text fails with "text cannot be empty" and nothing is printed. Any other text is printed exactly once and unchanged. The call returns the printer's own outcome, so it succeeds exactly when the text is non-empty and the printer accepts it. |
| `Core.PrintJSON` | internal/core/service.go:31-43 | Nil data fails with "data cannot be nil" and nothing is printed. A marshalling error comes back as "failed to marshal JSON: " + error, with nothing printed. Otherwise the printer gets exactly the marshalled text, once, and its outcome is returned unchanged. Something is printed exactly when the data is non-nil and marshals. |
| `Core.PrintJSONIsPrintTextOfEncoding` | internal/core/service.go:22-43 | For data that marshals to a non-empty text, PrintJSON does the same as PrintText on that text. An empty encoding would bypass the empty-text guard and still reach the printer. |
| `Config.Validate` | internal/config/config.go:58-68 | Validation passes exactly when the type is "mock", or the type is "ble" and the device name is non-empty. Any other type fails with "invalid printer type: <type> (must be 'mock' or 'ble')". That check comes first, so it wins even when the name is empty. "ble" with an empty name fails with "device name is required for BLE printer". |
| `Config.GetEnv` | internal/config/config.go:71-76 | Returns the variable's value when it is set and non-empty, and the default otherwise. It can only return "" when the default is "". |
| `Config.ParseDuration` | internal/config/config.go:79-85 | Returns 0 when parsing fails and the parsed duration otherwise. |
| `Config.Load` | internal/config/config.go:34-55 | Returns the assembled configuration exactly when it validates. Otherwise it returns no configuration and exactly the validation error. |
| `Config.LoadDefaults` | internal/config/config.go:35-54 | With no variables set, the result is port "8080", type "mock", device "Peripage", printer timeout 30 s and scan timeout 10 s, and it validates. This assumes the parser reads "30s" and "10s" as time.ParseDuration does. |
| `Config.EmptyValueIsUnset` | internal/config/config.go:71-76 | For Load, a variable set to "" is the same as a variable that is not set. |
| `Config.LoadFailsOnlyForUnknownType` | internal/config/config.go:34-68 | The device name defaults to a non-empty value, so Load fails exactly when the effective printer type is neither "mock" nor "ble". The error is then the invalid-type error for that type. |
| `Api.NewHandler` | internal/adapters/api/handler.go:16-20 | The handler holds exactly the service it was given. |
| `Api.Dispatch` | internal/adapters/api/handler.go:59-70 | A non-nil, non-empty data object leads to PrintJSON on that object. Otherwise non-empty text leads to PrintText on exactly that text. No call is made exactly when there is no data and no text. |
| `Api.Print` | internal/adapters/api/handler.go:50-83 | Each request writes exactly one response and makes at most one service call. A binding error gives 400 "Invalid request body: " + error, with no call. A request with neither data nor text gives 400 "Either 'text' or 'data' must be provided", with no call. Otherwise exactly the dispatched call is made and what it printed is reported. A service error gives 500 "Print failed: " + error. Success gives 200 with success=true and "Print job completed successfully". The status is 400 exactly when no call was made. |
| `Api.HealthCheck` | internal/adapters/api/handler.go:92-96 | Always 200 with status "healthy". |
| `Api.DataTakesPrecedence` | internal/adapters/api/handler.go:61-62 | With non-empty data, the exchange does not depend on the text at all. The one call is PrintJSON, and the marshalled text is what gets printed. |
| `Api.TextReachesPrinter` | internal/adapters/api/handler.go:63-77 | With no data and non-empty text, the one call is PrintText and the printer gets that text once. The status is 200 exactly when the printer accepts it. Otherwise the body is "Print failed: " + the printer's error. |
| `Api.NothingPrintedWithoutInput` | internal/adapters/api/handler.go:52-70 | A binding failure, or a request with neither data nor text, prints nothing and answers 400. |
| `Api.StatusCodes` | internal/adapters/api/handler.go:53-82 | Every exchange answers 200, 400 or 500, and a 200 always carries the success body. |
| `Ble.WithDefaults` | internal/adapters/printer/ble.go:29-35 | A nil logger becomes the default logger, and a zero scan timeout becomes 10 s. The device name and any non-zero timeout or given logger are kept. The resulting timeout is never 0. |
| `Ble.WithDefaultsIdempotent` | internal/adapters/printer/ble.go:29-35 | Applying the defaults a second time changes nothing. |
| `Ble.NewBLEPrinter` | internal/adapters/printer/ble.go:29-48 | If enabling the adapter fails, no printer is returned and the error is "failed to enable BLE adapter: " + error. Otherwise a new printer is returned with no device, the configured name, and the defaulted timeout and logger. |
| `Ble.BLEPrinter.constructor` | internal/adapters/printer/ble.go:42-47 | A new printer starts with no device and the given name, timeout and logger. |
| `Ble.FirstMatch` | internal/adapters/printer/ble.go:69-74 | Returns the index of the first advertisement whose local name equals the device name exactly, or None when no advertisement's name matches. |
| `Ble.MatchAdvertisements` | internal/adapters/printer/ble.go:56-75 | The scan callback runs over the advertisements in order. `found` is set exactly when some name matches, and `foundDevice` is then the first match. Otherwise `foundDevice` keeps the zero value. |
| `Ble.BLEPrinter.Connect` | internal/adapters/printer/ble.go:52-109 | A failed scan start gives "failed to start scan: " + error. No matching advertisement gives "device not found within timeout". A failed link connect to the first match gives "failed to connect to device: " + error. In all three cases `device` is left as it was. A successful link connect sets `device` to the connected device and returns nil, because the handshake always succeeds. A nil return always leaves a device set. |
| `Ble.BLEPrinter.PerformHandshake` | internal/adapters/printer/ble.go:117-136 | The handshake placeholder always succeeds. |
| `Ble.BLEPrinter.TextToBitmap` | internal/adapters/printer/ble.go:169-181 | Rendering fails for every text with "bitmap rendering not yet implemented". |
| `Ble.BLEPrinter.SendBitmap` | internal/adapters/printer/ble.go:189-198 | Sending fails for every bitmap with "bitmap sending not yet implemented". |
| `Ble.BLEPrinter.RenderAndSend` | internal/adapters/printer/ble.go:148-160 | A rendering error is returned wrapped in "failed to convert text to bitmap: " and nothing is sent. A rendered bitmap is sent once, and the transport error comes back wrapped in "failed to send bitmap: ". |
| `Ble.BLEPrinter.PrintText` | internal/adapters/printer/ble.go:139-161 | With no device, the call fails with "not connected to printer" and nothing is rendered or sent. With a device, the text is rendered once and the call fails with the wrapped rendering error. It always fails, and no bitmap is ever sent. |
| `Ble.BLEPrinter.Disconnect` | internal/adapters/printer/ble.go:201-217 | With no device, it returns nil and nothing changes. Otherwise the radio disconnect is attempted. On success `device` is cleared and nil is returned. On failure the device stays set and the error is "failed to disconnect: " + error. Afterwards the return is nil exactly when no device is held. |
| `Mock.MockPrintText` | internal/adapters/printer/mock.go:25-30 | The stdout printer never fails. |
| `Scenarios.MockServicePrintsText` | internal/core/service_test.go:34-47 | Over the stdout printer, every non-empty text is printed once and the call succeeds. |
| `Scenarios.PrinterErrorPropagated` | internal/core/service_test.go:57-64 | The printer's "printer offline" error comes back from the service word for word. |
| `Scenarios.DataOverTextOnMock` | internal/adapters/api/handler_test.go:159-169 | A request with both text and data prints the marshalled data and answers 200 with the success body. |
| `Scenarios.PrinterFailureIs500` | internal/adapters/api/handler_test.go:222-231 | A printer failure answers 500 "Print failed: printer offline". |
| `Scenarios.EmptyBodyIs400` | internal/adapters/api/handler_test.go:214-221 | The body `{}` answers 400 "Either 'text' or 'data' must be provided" and prints nothing. |

## Left out

- The protocol this adapter is meant to implement does not exist in the code: no device discovery beyond name matching, no handshake, no rendering, no framing, checksums, acknowledgment or retry, and no session state machine with Busy or Error states. The model follows the code, which has only placeholders (ble.go:117-136, 169-198), and invents none of these.
- Logging (every `logger.Printf` and `Println`) and the stdout output of the mock printer are I/O and are not modelled. The logger is kept only as a value.
- The concurrency in `Connect` is not modelled: the scan callback, the one-slot channel, and the `select` between the timeout and a found device. The scan is a finite sequence of advertisements received before the timeout. The case where the timeout fires just after a match was recorded behaves like a match, as it does in the code. The `StopScan` calls and the parent context are not modelled.
- Ble.BLEPrinter.Connect: the connected `bluetooth.Device` is abstract. Its only model is the value the link-connect parameter returns for the matched address.
- The Printer port is a function from text to outcome, so a port's answer for a text cannot change between calls. A stateful adapter such as the BLE printer is therefore not plugged into the service here. Its own PrintText is modelled and proved separately.
- Config.LoadDefaults: the result depends on `time.ParseDuration`, which is abstract here. The lemma assumes the parser reads "30s" and "10s" as 30 s and 10 s.
- JSON numbers are integers here. Go decodes them as float64, and floating point is not modelled. Key ordering and the byte layout of `MarshalIndent` belong to the abstract marshaller.
- `time.Duration` is an int64 in Go. Its overflow bounds are not modelled.
- Process wiring, the HTTP server, signal handling, route registration and Swagger in `cmd/server/main.go` and `internal/adapters/api/router.go` are not part of this model. The reflection-based test double in `internal/core/mocks/printer_mock.go` is not part of it either.
- The handler tests assign a test double to a field typed `*core.PrintService`, which does not compile as written. Their cases are used only as intended behaviour. The model follows the branches of `handler.go`.
